/** Leases and clocks: how long ownership is safe, and what heartbeat keeps it. */
module Timing {
  import opened Basics
  import opened Stores
  import opened Sessions
  import opened Fencing
  import opened Protocol

  // ---------- Exclusivity before the deadline ----------

  /** The owner's own finish, dead-letter or release. */
  predicate GivesUp(e: Event, worker: string) {
    e.Work? && e.worker == worker && (e.act.FinishUp? || e.act.Bury? || e.act.Release?)
  }

  /** Before the deadline an act ends an ownership only if it is the owner's own ending. */
  lemma ActRespectsLease(c: Settings, now: int, worker: string, s: Session, j: Job, act: Act, owner: string)
    requires worker != "" && Perform(c, now, worker, s, j, act).Moves?
    requires j.row.owner == Some(owner) && j.row.lease.Some? && now < j.row.lease.value
    requires worker == owner ==> !act.FinishUp? && !act.Bury? && !act.Release?
    ensures Perform(c, now, worker, s, j, act).job.row.owner == Some(owner)
  {
  }

  lemma ActSetsDeadline(c: Settings, now: int, worker: string, s: Session, j: Job, act: Act)
    requires Perform(c, now, worker, s, j, act).Moves?
    ensures Perform(c, now, worker, s, j, act).job.row.lease in {j.row.lease, None, Some(now + c.lease)}
  {
  }

  lemma StepRespectsLease(c: Settings, k: Cluster, e: Event, k2: Cluster, id: string, owner: string)
    requires c.lease > 0 && Sound(c, k) && Steps(c, k, e, k2) && id in k.jobs
    requires k.jobs[id].row.owner == Some(owner) && k.jobs[id].row.lease.Some? && k.now < k.jobs[id].row.lease.value
    requires !GivesUp(e, owner)
    ensures id in k2.jobs && k2.jobs[id].row.owner == Some(owner)
  {
    assert JobKept(c, k.jobs[id]);
    if e.Work? {
      var s := k.sessions[e.worker];
      assert SessionKept(c, e.worker, s, k.jobs[s.job]);
      if s.job == id {
        ActRespectsLease(c, k.now, e.worker, s, k.jobs[id], e.act, owner);
      }
    } else {
      EventRespectsLease(c, k, e, k2, id);
    }
  }

  lemma EventRespectsLease(c: Settings, k: Cluster, e: Event, k2: Cluster, id: string)
    requires c.lease > 0 && Happens(c, k, e, k2) && id in k.jobs && SubmissionsFresh(k)
    requires k.jobs[id].row.status == Status.Running && k.jobs[id].row.lease.Some? && k.now < k.jobs[id].row.lease.value
    ensures id in k2.jobs && k2.jobs[id].row == k.jobs[id].row
  {
    if e.SweepStore? {
      assert forall x :: x in e.ids ==> x in Rows(k.jobs) && Overdue(Rows(k.jobs)[x], k.now, c.lease);
    }
  }

  lemma StepSetsDeadline(c: Settings, k: Cluster, e: Event, k2: Cluster, id: string)
    requires Steps(c, k, e, k2) && id in k2.jobs
    ensures k2.now >= k.now
    ensures k2.jobs[id].row.lease.Some? ==>
              (id in k.jobs && k2.jobs[id].row.lease == k.jobs[id].row.lease)
                  || k2.jobs[id].row.lease.value == k.now + c.lease
  {
    if e.Work? {
      var s := k.sessions[e.worker];
      ActSetsDeadline(c, k.now, e.worker, s, k.jobs[s.job], e.act);
    } else {
      assert Happens(c, k, e, k2);
    }
  }

  /** No deadline lies further ahead than one lease. */
  lemma {:induction false} DeadlineWithinLease(c: Settings, states: seq<Cluster>, events: seq<Event>, n: nat,
                                               id: string)
    requires IsRun(c, states, events) && n < |states| && id in states[n].jobs && states[n].jobs[id].row.lease.Some?
    ensures states[n].jobs[id].row.lease.value <= states[n].now + c.lease
  {
    if n > 0 {
      StepHappens(c, states, events, n - 1);
      StepSetsDeadline(c, states[n - 1], events[n - 1], states[n], id);
      if id in states[n - 1].jobs && states[n].jobs[id].row.lease == states[n - 1].jobs[id].row.lease {
        DeadlineWithinLease(c, states, events, n - 1, id);
      }
    }
  }

  lemma StepKeepsDeadline(c: Settings, k: Cluster, e: Event, k2: Cluster, id: string, owner: string, deadline: int)
    requires c.lease > 0 && Sound(c, k) && Steps(c, k, e, k2) && id in k.jobs && !GivesUp(e, owner)
    requires k.jobs[id].row.owner == Some(owner) && k.jobs[id].row.lease.Some?
    requires k.now < deadline <= k.jobs[id].row.lease.value && deadline <= k.now + c.lease
    ensures id in k2.jobs && k2.jobs[id].row.owner == Some(owner) && k2.jobs[id].row.lease.Some?
    ensures k2.jobs[id].row.lease.value >= deadline
  {
    StepRespectsLease(c, k, e, k2, id, owner);
    StepKeepsSound(c, k, e, k2);
    assert JobKept(c, k2.jobs[id]);
    StepSetsDeadline(c, k, e, k2, id);
  }

  /** Until the deadline seen at some moment, only the owner itself can end its
      ownership, and renewals only move the deadline on. */
  lemma {:induction false} OwnedUntilDeadline(c: Settings, states: seq<Cluster>, events: seq<Event>, i: nat, m: nat,
                                              id: string, owner: string)
    requires c.lease > 0 && IsRun(c, states, events) && i <= m < |states| && id in states[i].jobs
    requires states[i].jobs[id].row.owner == Some(owner) && states[i].jobs[id].row.lease.Some?
    requires forall p :: i <= p < m ==> !GivesUp(events[p], owner) && states[p].now < states[i].jobs[id].row.lease.value
    ensures id in states[m].jobs && states[m].jobs[id].row.owner == Some(owner) && states[m].jobs[id].row.lease.Some?
    ensures states[m].jobs[id].row.lease.value >= states[i].jobs[id].row.lease.value
    decreases m - i
  {
    if i < m {
      OwnedUntilDeadline(c, states, events, i, m - 1, id, owner);
      RunsAreSound(c, states, events, m - 1);
      ClockRises(c, states, events, i, m - 1);
      DeadlineWithinLease(c, states, events, i, id);
      StepHappens(c, states, events, m - 1);
      StepKeepsDeadline(c, states[m - 1], events[m - 1], states[m], id, owner, states[i].jobs[id].row.lease.value);
    }
  }

  lemma {:induction false} ClockRises(c: Settings, states: seq<Cluster>, events: seq<Event>, i: nat, m: nat)
    requires IsRun(c, states, events) && i <= m < |states|
    ensures states[i].now <= states[m].now
    decreases m - i
  {
    if i < m {
      ClockRises(c, states, events, i, m - 1);
      StepHappens(c, states, events, m - 1);
    }
  }

  // ---------- Renewals ----------

  /** Event p is a store heartbeat of this worker's session with the job. */
  ghost predicate Beats(states: seq<Cluster>, events: seq<Event>, p: nat, id: string, worker: string)
    requires |states| == |events| + 1
  {
    && p < |events| && events[p].Work? && events[p].worker == worker && events[p].act == BeatStore(true)
    && worker in states[p].sessions && states[p].sessions[worker].job == id
  }

  /** Just after event p the worker owns the job with a full lease. */
  ghost predicate FreshlyLeased(c: Settings, states: seq<Cluster>, p: nat, id: string, worker: string) {
    && p + 1 < |states| && id in states[p + 1].jobs
    && states[p + 1].jobs[id].row.owner == Some(worker)
    && states[p + 1].jobs[id].row.lease == Some(states[p].now + c.lease)
  }

  /** A heartbeat while owning renews for a full lease. */
  lemma BeatRenews(c: Settings, states: seq<Cluster>, events: seq<Event>, p: nat, id: string, worker: string)
    requires IsRun(c, states, events) && Beats(states, events, p, id, worker)
    requires id in states[p].jobs && states[p].jobs[id].row.owner == Some(worker)
    ensures FreshlyLeased(c, states, p, id, worker)
  {
    StepHappens(c, states, events, p);
    RunsAreSound(c, states, events, p);
    StoreBeatRenews(c, states[p], events[p], states[p + 1], id);
  }

  lemma StoreBeatRenews(c: Settings, k: Cluster, e: Event, k2: Cluster, id: string)
    requires Sound(c, k) && Steps(c, k, e, k2) && e.Work? && e.act == BeatStore(true)
    requires k.sessions[e.worker].job == id && k.jobs[id].row.owner == Some(e.worker)
    ensures id in k2.jobs && k2.jobs[id].row.owner == Some(e.worker) && k2.jobs[id].row.lease == Some(k.now + c.lease)
  {
    assert OwnershipKept(k.jobs[id]);
    assert Perform(c, k.now, e.worker, k.sessions[e.worker], k.jobs[id], e.act)
        == DoBeatStore(c, k.now, e.worker, k.sessions[e.worker], k.jobs[id], true);
  }

  /** Less than one lease apart. */
  ghost predicate Within(c: Settings, states: seq<Cluster>, a: nat, b: nat) {
    a < |states| && b < |states| && states[b].now - states[a].now < c.lease
  }

  /** A worker whose store heartbeats go through less than one lease apart is never
      displaced: it owns the job at every moment from the first to the last. */
  lemma {:induction false} RenewalsKeepOwnership(c: Settings, states: seq<Cluster>, events: seq<Event>,
                                                 beats: seq<nat>, id: string, worker: string)
    requires c.lease > 0 && IsRun(c, states, events) && |beats| > 0 && FreshlyLeased(c, states, beats[0], id, worker)
    requires forall n :: 0 < n < |beats| ==> beats[n - 1] < beats[n] && Beats(states, events, beats[n], id, worker)
    requires forall n :: 0 < n < |beats| ==> Within(c, states, beats[n - 1], beats[n])
    requires forall p :: beats[0] < p <= beats[|beats| - 1] && p < |events| ==> !GivesUp(events[p], worker)
    ensures beats[0] <= beats[|beats| - 1] && FreshlyLeased(c, states, beats[|beats| - 1], id, worker)
    ensures forall p :: beats[0] < p <= beats[|beats| - 1] + 1 ==>
              id in states[p].jobs && states[p].jobs[id].row.owner == Some(worker)
  {
    if |beats| > 1 {
      var front := beats[..|beats| - 1];
      RenewalsKeepOwnership(c, states, events, front, id, worker);
      var (a, b) := (front[|front| - 1], beats[|beats| - 1]);
      forall p | a < p <= b ensures id in states[p].jobs && states[p].jobs[id].row.owner == Some(worker) {
        OwnedBetweenBeats(c, states, events, a, b, p, id, worker);
      }
      BeatRenews(c, states, events, b, id, worker);
    }
  }

  lemma OwnedBetweenBeats(c: Settings, states: seq<Cluster>, events: seq<Event>, a: nat, b: nat, p: nat, id: string,
                          worker: string)
    requires c.lease > 0 && IsRun(c, states, events) && a < p <= b < |events| && FreshlyLeased(c, states, a, id, worker)
    requires Within(c, states, a, b)
    requires forall q :: a < q <= b ==> !GivesUp(events[q], worker)
    ensures id in states[p].jobs && states[p].jobs[id].row.owner == Some(worker)
  {
    forall q | a + 1 <= q < p ensures states[q].now < states[a].now + c.lease {
      ClockRises(c, states, events, q, b);
    }
    OwnedUntilDeadline(c, states, events, a + 1, p, id, worker);
  }

  // ---------- Which heartbeat is fast enough ----------

  const SECOND := 1_000_000_000
  const DEFAULT_LEASE := 30 * SECOND

  /** The configured lease and heartbeat, in nanoseconds. */
  datatype Config = Config(lease: int, heartbeat: int)
  {
    function Lease(): int {
      if lease <= 0 then DEFAULT_LEASE else lease
    }

    /** Go's integer division truncates; the lease is positive. */
    function Heartbeat(): int {
      if 0 < heartbeat < Lease() then heartbeat else Lease() / 3
    }
  }

  /** A heartbeat that is shorter than the lease is used as configured, and otherwise it is
      a third of the lease; it is a usable ticker period except for leases of one or two
      nanoseconds without an explicit heartbeat. */
  lemma HeartbeatShorterThanLease(config: Config)
    ensures 0 <= config.Heartbeat() < config.Lease()
    ensures config.Heartbeat() == 0 <==> config.lease in {1, 2} && !(0 < config.heartbeat < config.lease)
    ensures config.Lease() == if config.lease > 0 then config.lease else 30_000_000_000
    ensures 0 < config.heartbeat < config.Lease() ==> config.Heartbeat() == config.heartbeat
    ensures !(0 < config.heartbeat < config.Lease()) ==>
              3 * config.Heartbeat() <= config.Lease() < 3 * config.Heartbeat() + 3
  {
  }

  /** Attempt k takes effect within `latency` of its tick; attempt 0 is the claim, which
      takes effect at most `setup` before the ticker is started. */
  ghost predicate OnSchedule(effects: seq<int>, start: int, period: int, latency: int, setup: int) {
    && |effects| > 0 && start - setup <= effects[0] <= start
    && forall k :: 0 < k < |effects| ==> start + k * period <= effects[k] < start + k * period + latency
  }

  /** No two attempts in a row fail. */
  ghost predicate FailuresIsolated(ok: seq<bool>) {
    |ok| > 0 && ok[0] && forall k :: 0 < k < |ok| ==> ok[k - 1] || ok[k]
  }

  /** With a heartbeat of at most a third of the lease, and delays below one heartbeat,
      an isolated failed renewal does not let the lease lapse: successful renewals with
      none in between are less than a lease apart. */
  lemma IsolatedFailureTolerated(effects: seq<int>, ok: seq<bool>, start: int, period: int, latency: int, setup: int,
                                 lease: int, k: nat, m: nat)
    requires |effects| == |ok| && OnSchedule(effects, start, period, latency, setup) && FailuresIsolated(ok)
    requires 3 * period <= lease && 0 <= setup && 0 < latency && setup + latency <= period
    requires k < m < |ok| && ok[k] && ok[m] && forall n :: k < n < m ==> !ok[n]
    ensures effects[m] - effects[k] < lease
  {
    assert k + 2 < |ok| ==> ok[k + 1] || ok[k + 2];
    TwoTicks(k, m, period);
  }

  lemma TwoTicks(k: nat, m: nat, period: int)
    requires k < m <= k + 2 && period >= 0
    ensures m * period <= k * period + 2 * period
  {
    assert m * period == k * period + (m - k) * period;
  }

  // ---------- The configured heartbeat over a run ----------

  const MILLISECOND := 1_000_000

  /** Renewal attempts of a worker over a run: event number attempts[0] leaves it with a
      full lease, and attempt k reaches the store, as event attempts[k], iff ok[k]. */
  datatype Renewals = Renewals(attempts: seq<nat>, ok: seq<bool>, id: string, worker: string)

  /** When the attempts take effect, in nanoseconds of the store's clock. */
  ghost function Effects(states: seq<Cluster>, r: Renewals): seq<int>
    requires forall k :: 0 <= k < |r.attempts| ==> r.attempts[k] < |states|
  {
    seq(|r.attempts|, k requires 0 <= k < |r.attempts| => states[r.attempts[k]].now * MILLISECOND)
  }

  ghost predicate Attempted(c: Settings, states: seq<Cluster>, events: seq<Event>, r: Renewals)
    requires |states| == |events| + 1
  {
    && |r.attempts| == |r.ok| && FailuresIsolated(r.ok)
    && (forall i, j :: 0 <= i < j < |r.attempts| ==> r.attempts[i] < r.attempts[j])
    && (forall k :: 0 <= k < |r.attempts| ==> r.attempts[k] < |events|)
    && FreshlyLeased(c, states, r.attempts[0], r.id, r.worker)
    && (forall k :: 0 < k < |r.attempts| && r.ok[k] ==> Beats(states, events, r.attempts[k], r.id, r.worker))
    && (forall p :: r.attempts[0] < p <= r.attempts[|r.attempts| - 1] ==> !GivesUp(events[p], r.worker))
  }

  /** The attempts follow a ticker of the configured heartbeat, with delays below it. */
  ghost predicate Ticking(config: Config, c: Settings, states: seq<Cluster>, r: Renewals, start: int, latency: int,
                          setup: int)
    requires forall k :: 0 <= k < |r.attempts| ==> r.attempts[k] < |states|
  {
    && c.lease * MILLISECOND == config.Lease() && 3 * config.Heartbeat() <= config.Lease()
    && 0 <= setup && 0 < latency && setup + latency <= config.Heartbeat()
    && OnSchedule(Effects(states, r), start, config.Heartbeat(), latency, setup)
  }

  /** A worker that renews on the configured heartbeat of at most a third of the lease
      (the default is one), with delays below one heartbeat, owns the job at every moment
      up to its latest successful renewal, even if isolated renewals fail. */
  lemma {:induction false} HeartbeatKeepsOwnership(config: Config, c: Settings, states: seq<Cluster>,
                                                   events: seq<Event>,
                                                   r: Renewals, start: int, latency: int, setup: int, m: nat)
    requires c.lease > 0 && IsRun(c, states, events) && Attempted(c, states, events, r)
    requires Ticking(config, c, states, r, start, latency, setup)
    requires m < |r.ok| && r.ok[m]
    ensures FreshlyLeased(c, states, r.attempts[m], r.id, r.worker)
    ensures forall p :: r.attempts[0] < p <= r.attempts[m] + 1 ==>
              r.id in states[p].jobs && states[p].jobs[r.id].row.owner == Some(r.worker)
    decreases m
  {
    if m > 0 {
      assert r.ok[m - 1] || r.ok[m];
      var k := if r.ok[m - 1] then m - 1 else m - 2;
      assert r.ok[k] by { assert m >= 2 ==> r.ok[m - 2] || r.ok[m - 1]; }
      HeartbeatKeepsOwnership(config, c, states, events, r, start, latency, setup, k);
      IsolatedFailureTolerated(Effects(states, r), r.ok, start, config.Heartbeat(), latency, setup, config.Lease(), k,
                               m);
      OneRenewalOn(c, states, events, r, k, m);
    }
  }

  lemma OneRenewalOn(c: Settings, states: seq<Cluster>, events: seq<Event>, r: Renewals, k: nat, m: nat)
    requires c.lease > 0 && IsRun(c, states, events) && Attempted(c, states, events, r)
    requires k < m < |r.ok| && r.ok[m] && FreshlyLeased(c, states, r.attempts[k], r.id, r.worker)
    requires Effects(states, r)[m] - Effects(states, r)[k] < c.lease * MILLISECOND
    ensures FreshlyLeased(c, states, r.attempts[m], r.id, r.worker)
    ensures forall p :: r.attempts[k] < p <= r.attempts[m] + 1 ==>
              r.id in states[p].jobs && states[p].jobs[r.id].row.owner == Some(r.worker)
  {
    var (a, b) := (r.attempts[k], r.attempts[m]);
    assert Within(c, states, a, b);
    forall p | a < p <= b ensures r.id in states[p].jobs && states[p].jobs[r.id].row.owner == Some(r.worker) {
      OwnedBetweenBeats(c, states, events, a, b, p, r.id, r.worker);
    }
    BeatRenews(c, states, events, b, r.id, r.worker);
  }
}
