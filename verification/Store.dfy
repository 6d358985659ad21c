/** The PostgreSQL store: every statement is one guarded, atomic update of a job row or
    of one of its step rows. Time is the database clock in milliseconds. */
module Stores {
  import opened Basics
  import opened Workflows
  import opened Queues

  /** A job and its steps' rows. `owner` and `lease` are NULL together or not at all;
      that is a theorem about the protocol, not part of the schema. */
  datatype JobRow = JobRow(steps: seq<Step>, status: Status, owner: Option<string>, lease: Option<int>,
                           attempts: nat, error: string, results: map<string, StepResult>)

  // ---------- The statements ----------

  predicate Terminal(row: JobRow) {
    row.status == Succeeded || row.status == Failed
  }

  /** Not finished, and free, ours, or no longer covered by a lease. */
  predicate Claimable(row: JobRow, worker: string, now: int) {
    !Terminal(row) &&
    (row.owner == None || row.owner == Some(worker) || row.lease == None || row.lease.value <= now)
  }

  function ClaimRow(row: JobRow, worker: string, until: int): JobRow {
    row.(status := Running, owner := Some(worker), lease := Some(until), attempts := row.attempts + 1)
  }

  /** Ownership, whether or not the deadline has passed. */
  predicate OwnedBy(row: JobRow, worker: string) {
    row.owner == Some(worker) && row.status == Running
  }

  function ExtendRow(row: JobRow, worker: string, until: int): JobRow {
    if OwnedBy(row, worker) then row.(lease := Some(until)) else row
  }

  /** An empty worker name stands for nobody and matches an unowned job. */
  predicate Finishable(row: JobRow, worker: string) {
    row.owner == Some(worker) || (worker == "" && row.owner == None)
  }

  function FinishRow(row: JobRow, worker: string, status: Status, error: string): JobRow {
    if Finishable(row, worker) then row.(status := status, error := error, owner := None, lease := None) else row
  }

  function FreeRow(row: JobRow): JobRow {
    row.(status := Pending, owner := None, lease := None)
  }

  function ReleaseRow(row: JobRow, worker: string): JobRow {
    if OwnedBy(row, worker) then FreeRow(row) else row
  }

  /** The store reaper's selection: running, and expired for at least the grace period. */
  predicate Overdue(row: JobRow, now: int, grace: int) {
    row.status == Running && row.lease.Some? && row.lease.value <= now - grace
  }

  predicate StepClaimable(row: JobRow, step: string, worker: string) {
    step in row.results && row.owner == Some(worker) && row.results[step].status != Succeeded
  }

  function ClaimStepRow(row: JobRow, step: string, worker: string): JobRow {
    if StepClaimable(row, step, worker) then row.(results := row.results[step := row.results[step].(status := Running)])
    else row
  }

  /** Fenced on the owner alone: a succeeded row would be overwritten too. */
  function UpdateStepRow(row: JobRow, worker: string, result: StepResult): JobRow {
    if result.id in row.results && (worker == "" || row.owner == Some(worker)) then
      row.(results := row.results[result.id := result])
    else row
  }

  ghost function PendingResults(steps: seq<Step>): map<string, StepResult> {
    map id | id in Ids(steps) :: StepResult(id, Pending, 0, "", "")
  }

  ghost function NewRow(steps: seq<Step>): JobRow {
    JobRow(steps, Pending, None, None, 0, "", PendingResults(steps))
  }

  // ---------- The store reaper's batch ----------

  /** Up to `limit` overdue jobs, the longest expired first. */
  ghost predicate IsSweep(jobs: map<string, JobRow>, now: int, grace: int, limit: nat, ids: seq<string>) {
    && |ids| <= limit && NoDup(ids)
    && (forall id :: id in ids ==> id in jobs && Overdue(jobs[id], now, grace))
    && (forall a, b :: a in ids && b in jobs && b !in ids && Overdue(jobs[b], now, grace) ==>
          jobs[a].lease.value <= jobs[b].lease.value)
    && (|ids| < limit ==> forall b :: b in jobs && Overdue(jobs[b], now, grace) ==> b in ids)
  }

  ghost function Swept(jobs: map<string, JobRow>, ids: seq<string>): map<string, JobRow> {
    map id | id in jobs :: if id in ids then FreeRow(jobs[id]) else jobs[id]
  }

  // ---------- The store ----------

  class Store {
    var jobs: map<string, JobRow>
    /** The database clock. */
    var now: int

    constructor (now: int)
      ensures jobs == map[] && this.now == now
    {
      jobs, this.now := map[], now;
    }

    /** Inserts the job and its steps, or nothing: a repeated id rolls back. */
    method Create(id: string, steps: seq<Step>) returns (ok: bool)
      modifies this`jobs
      ensures ok <==> id !in old(jobs) && UniqueIds(steps)
      ensures jobs == if ok then old(jobs)[id := NewRow(steps)] else old(jobs)
      ensures ok ==>
                && jobs == old(jobs)[id := jobs[id]] && jobs[id].steps == steps && jobs[id].status == Pending
                && jobs[id].owner == None && jobs[id].lease == None && jobs[id].attempts == 0 && jobs[id].error == ""
                && jobs[id].results.Keys == Ids(steps)
                && forall x :: x in jobs[id].results ==> jobs[id].results[x] == StepResult(x, Pending, 0, "", "")
    {
      if id in jobs {
        return false;
      }
      var results: map<string, StepResult> := map[];
      for i := 0 to |steps|
        invariant jobs == old(jobs)
        invariant UniqueIds(steps[..i])
        invariant results.Keys == Ids(steps[..i])
        invariant forall x :: x in results ==> results[x] == StepResult(x, Pending, 0, "", "")
      {
        if steps[i].id in results {
          return false;
        }
        assert steps[..i + 1] == steps[..i] + [steps[i]];
        IdsGrow(steps[..i], steps[i]);
        results := results[steps[i].id := StepResult(steps[i].id, Pending, 0, "", "")];
      }
      assert steps[..|steps|] == steps;
      assert results == PendingResults(steps);
      jobs := jobs[id := JobRow(steps, Pending, None, None, 0, "", results)];
      ok := true;
    }

    /** The job with its results in declaration order. */
    method Get(id: string) returns (row: Option<JobRow>, results: seq<StepResult>)
      requires forall x :: x in jobs ==> jobs[x].results.Keys == Ids(jobs[x].steps)
      ensures row == if id in jobs then Some(jobs[id]) else None
      ensures row.Some? ==> |results| == |row.value.steps|
      ensures row.Some? ==> forall i :: 0 <= i < |results| ==>
                row.value.steps[i].id in row.value.results && results[i] == row.value.results[row.value.steps[i].id]
    {
      results := [];
      if id !in jobs {
        return None, results;
      }
      row := Some(jobs[id]);
      var steps := row.value.steps;
      for i := 0 to |steps|
        invariant |results| == i
        invariant forall k :: 0 <= k < i ==>
                    steps[k].id in row.value.results && results[k] == row.value.results[steps[k].id]
      {
        results := results + [row.value.results[steps[i].id]];
      }
    }

    /** Takes the job for `lease` milliseconds and counts the delivery. */
    method ClaimJob(id: string, worker: string, lease: int) returns (attempts: Option<nat>)
      modifies this`jobs
      ensures attempts.Some? <==> id in old(jobs) && Claimable(old(jobs)[id], worker, now)
      ensures attempts.Some? ==> attempts.value == old(jobs)[id].attempts + 1
      ensures jobs == if attempts.Some? then old(jobs)[id := ClaimRow(old(jobs)[id], worker, now + lease)]
                      else old(jobs)
      ensures attempts.Some? <==>
                && id in old(jobs) && old(jobs)[id].status != Succeeded && old(jobs)[id].status != Failed
                && (old(jobs)[id].owner.Some? && old(jobs)[id].owner.value != worker && old(jobs)[id].lease.Some? ==>
                      old(jobs)[id].lease.value <= now)
      ensures attempts.Some? ==>
                jobs == old(jobs)[id := old(jobs)[id].(status := Running, owner := Some(worker),
                                                       lease := Some(now + lease), attempts := attempts.value)]
    {
      if id !in jobs || jobs[id].status == Succeeded || jobs[id].status == Failed {
        return None;
      }
      var row := jobs[id];
      if row.owner.Some? && row.owner.value != worker && row.lease.Some? && row.lease.value > now {
        return None;
      }
      jobs := jobs[id := row.(status := Running, owner := Some(worker), lease := Some(now + lease),
                              attempts := row.attempts + 1)];
      attempts := Some(row.attempts + 1);
    }

    method ExtendLease(id: string, worker: string, lease: int) returns (held: bool)
      modifies this`jobs
      ensures held <==> id in old(jobs) && OwnedBy(old(jobs)[id], worker)
      ensures jobs == if id in old(jobs) then old(jobs)[id := ExtendRow(old(jobs)[id], worker, now + lease)]
                      else old(jobs)
      ensures held <==> id in old(jobs) && old(jobs)[id].owner == Some(worker) && old(jobs)[id].status == Running
      ensures jobs == if held then old(jobs)[id := old(jobs)[id].(lease := Some(now + lease))] else old(jobs)
    {
      if id !in jobs || jobs[id].owner != Some(worker) || jobs[id].status != Running {
        return false;
      }
      jobs := jobs[id := jobs[id].(lease := Some(now + lease))];
      held := true;
    }

    method FinishJob(id: string, worker: string, status: Status, error: string) returns (held: bool)
      modifies this`jobs
      ensures held <==> id in old(jobs) && Finishable(old(jobs)[id], worker)
      ensures jobs == if id in old(jobs) then old(jobs)[id := FinishRow(old(jobs)[id], worker, status, error)]
                      else old(jobs)
      ensures held <==> id in old(jobs) && old(jobs)[id].owner == (if worker == "" && old(jobs)[id].owner.None?
                                                                   then None else Some(worker))
      ensures jobs == if held then old(jobs)[id := old(jobs)[id].(status := status, error := error, owner := None,
                                                                  lease := None)] else old(jobs)
    {
      if id !in jobs {
        return false;
      }
      var row := jobs[id];
      held := row.owner == Some(worker) || (worker == "" && row.owner.None?);
      if held {
        jobs := jobs[id := row.(status := status, error := error, owner := None, lease := None)];
      }
    }

    method ReleaseJob(id: string, worker: string)
      modifies this`jobs
      ensures jobs == if id in old(jobs) then old(jobs)[id := ReleaseRow(old(jobs)[id], worker)] else old(jobs)
      ensures jobs == if id in old(jobs) && old(jobs)[id].owner == Some(worker) && old(jobs)[id].status == Running
                      then old(jobs)[id := old(jobs)[id].(status := Pending, owner := None, lease := None)]
                      else old(jobs)
    {
      if id in jobs && jobs[id].owner == Some(worker) && jobs[id].status == Running {
        jobs := jobs[id := jobs[id].(status := Pending, owner := None, lease := None)];
      }
    }

    method ReclaimExpiredJobs(grace: int, limit: int) returns (ids: seq<string>)
      modifies this`jobs
      ensures IsSweep(old(jobs), now, grace, Batch(limit), ids)
      ensures jobs == Swept(old(jobs), ids)
      ensures UpTo(if limit > 0 then limit else 100, ids,
                   set b | b in old(jobs) && old(jobs)[b].status == Running && old(jobs)[b].lease.Some?
                           && old(jobs)[b].lease.value + grace <= now)
      ensures jobs.Keys == old(jobs).Keys
      ensures forall b :: b in jobs ==>
                jobs[b] == if b in ids then old(jobs)[b].(status := Pending, owner := None, lease := None)
                           else old(jobs)[b]
    {
      var overdue := map id | id in jobs && Overdue(jobs[id], now, grace) :: jobs[id].lease.value;
      ids := RangeByScore(overdue, now - grace, Batch(limit));
      SweepMeans(jobs, now, grace, limit, ids);
      FreeAll(ids);
    }

    method FreeAll(ids: seq<string>)
      requires forall id :: id in ids ==> id in jobs
      modifies this`jobs
      ensures jobs == Swept(old(jobs), ids)
      ensures jobs.Keys == old(jobs).Keys
      ensures forall b :: b in jobs ==>
                jobs[b] == if b in ids then old(jobs)[b].(status := Pending, owner := None, lease := None)
                           else old(jobs)[b]
    {
      for k := 0 to |ids|
        invariant jobs == Swept(old(jobs), ids[..k])
      {
        assert ids[..k + 1] == ids[..k] + [ids[k]];
        jobs := jobs[ids[k] := jobs[ids[k]].(status := Pending, owner := None, lease := None)];
      }
      assert ids[..|ids|] == ids;
    }

    method ClaimStep(id: string, step: string, worker: string) returns (claimed: bool)
      modifies this`jobs
      ensures claimed <==> id in old(jobs) && StepClaimable(old(jobs)[id], step, worker)
      ensures jobs == if id in old(jobs) then old(jobs)[id := ClaimStepRow(old(jobs)[id], step, worker)] else old(jobs)
      ensures claimed <==>
                && id in old(jobs) && old(jobs)[id].owner == Some(worker) && step in old(jobs)[id].results
                && old(jobs)[id].results[step].status != Succeeded
      ensures !claimed ==> jobs == old(jobs)
      ensures claimed ==>
                && jobs == old(jobs)[id := old(jobs)[id].(results := jobs[id].results)]
                && jobs[id].results == old(jobs)[id].results[step := jobs[id].results[step]]
                && jobs[id].results[step] == old(jobs)[id].results[step].(status := Running)
    {
      if id !in jobs {
        return false;
      }
      var row := jobs[id];
      claimed := step in row.results && row.owner == Some(worker) && row.results[step].status != Succeeded;
      if claimed {
        jobs := jobs[id := row.(results := row.results[step := row.results[step].(status := Running)])];
      }
    }

    method UpdateStep(id: string, worker: string, result: StepResult)
      modifies this`jobs
      ensures jobs == if id in old(jobs) then old(jobs)[id := UpdateStepRow(old(jobs)[id], worker, result)]
                      else old(jobs)
      ensures jobs == if id in old(jobs) && result.id in old(jobs)[id].results
                         && (worker == "" || old(jobs)[id].owner == Some(worker))
                      then old(jobs)[id := old(jobs)[id].(results := old(jobs)[id].results[result.id := result])]
                      else old(jobs)
    {
      if id in jobs {
        var row := jobs[id];
        if result.id in row.results && (worker == "" || row.owner == Some(worker)) {
          jobs := jobs[id := row.(results := row.results[result.id := result])];
        }
      }
    }
  }

  /** What the selection and the default limit come to. */
  lemma SweepMeans(jobs: map<string, JobRow>, now: int, grace: int, limit: int, ids: seq<string>)
    requires IsSweep(jobs, now, grace, Batch(limit), ids)
    ensures UpTo(if limit > 0 then limit else 100, ids,
                 set b | b in jobs && jobs[b].status == Running && jobs[b].lease.Some?
                         && jobs[b].lease.value + grace <= now)
  {
  }

  lemma IdsGrow(rows: seq<Step>, step: Step)
    requires UniqueIds(rows)
    ensures Ids(rows + [step]) == Ids(rows) + {step.id}
    ensures UniqueIds(rows + [step]) <==> step.id !in Ids(rows)
  {
    var more := rows + [step];
    assert more[|rows|].id == step.id;
    forall j | 0 <= j < |rows| ensures more[j].id == rows[j].id && rows[j].id in Ids(more) {
      assert more[j] == rows[j];
    }
    if step.id in Ids(rows) {
      var j :| 0 <= j < |rows| && rows[j].id == step.id;
      assert more[j].id == more[|rows|].id;
    }
  }
}
