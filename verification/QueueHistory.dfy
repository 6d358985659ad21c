/** What holds after any sequence of queue scripts. */
module QueueHistories {
  import opened Basics
  import opened Queues

  /** One script and its arguments; a reclaim also says which ids it returned. */
  datatype Script =
    | PushScript(id: string)
    | ClaimScript(owner: string, deadline: int)
    | ExtendScript(id: string, owner: string, deadline: int)
    | AckScript(id: string)
    | RequeueScript(id: string)
    | ReclaimScript(now: int, limit: int, expired: seq<string>)

  function After(q: QueueState, script: Script): QueueState {
    match script
    case PushScript(id) => Pushed(q, id)
    case ClaimScript(owner, deadline) => Claimed(q, owner, deadline)
    case ExtendScript(id, owner, deadline) => Extended(q, id, owner, deadline)
    case AckScript(id) => Acked(q, id)
    case RequeueScript(id) => Requeued(q, id)
    case ReclaimScript(_, _, expired) => Returned(q, expired)
  }

  ghost predicate Possible(q: QueueState, script: Script) {
    script.ReclaimScript? ==> IsExpired(q.leases, script.now, Batch(script.limit), script.expired)
  }

  /** The queue after the first n scripts. */
  function Replay(h: seq<Script>, n: nat): QueueState
    requires n <= |h|
  {
    if n == 0 then EMPTY else After(Replay(h, n - 1), h[n - 1])
  }

  ghost predicate History(h: seq<Script>) {
    forall k :: 0 <= k < |h| ==> Possible(Replay(h, k), h[k])
  }

  // ---------- Leases and owners ----------

  /** The script gives this id an owner or takes it away. */
  ghost predicate Touches(h: seq<Script>, k: nat, id: string)
    requires k < |h|
  {
    match h[k]
    case ClaimScript(_, _) => Next(Replay(h, k)) == Some(id)
    case AckScript(x) => x == id
    case RequeueScript(x) => x == id
    case ReclaimScript(_, _, expired) => id in expired
    case _ => false
  }

  /** Among the first n scripts, number i is this worker's claim of the id, and the last
      one to touch it. */
  ghost predicate LatestClaim(h: seq<Script>, n: nat, i: nat, id: string, worker: string)
    requires n <= |h|
  {
    && i < n && h[i].ClaimScript? && h[i].owner == worker && Touches(h, i, id)
    && forall k :: i < k < n ==> !Touches(h, k, id)
  }

  /** The lease set and the owner hash always speak about the same ids. */
  lemma {:induction false} LeasedMeansOwned(h: seq<Script>, n: nat)
    requires n <= |h|
    ensures Replay(h, n).leases.Keys == Replay(h, n).owners.Keys
  {
    if n > 0 {
      LeasedMeansOwned(h, n - 1);
      if h[n - 1].ReclaimScript? {
        ReturnedMeans(Replay(h, n - 1), h[n - 1].expired);
      }
    }
  }

  /** A worker can extend a lease iff it made the latest claim of the id, and nobody
      acked, requeued or reclaimed the id since. */
  lemma {:induction false} ExtendableIffLatestClaim(h: seq<Script>, n: nat, id: string, worker: string)
    requires n <= |h|
    ensures Holds(Replay(h, n), id, worker) <==> exists i :: LatestClaim(h, n, i, id, worker)
  {
    LeasedMeansOwned(h, n);
    if n > 0 {
      ExtendableIffLatestClaim(h, n - 1, id, worker);
      LeasedMeansOwned(h, n - 1);
      OneMoreScript(h, n - 1, id, worker);
      forall i: nat ensures LatestClaim(h, n, i, id, worker) <==>
        if Touches(h, n - 1, id) then i == n - 1 && h[i].ClaimScript? && h[i].owner == worker
        else LatestClaim(h, n - 1, i, id, worker)
      {
      }
    }
  }

  lemma OneMoreScript(h: seq<Script>, n: nat, id: string, worker: string)
    requires n < |h| && Replay(h, n).leases.Keys == Replay(h, n).owners.Keys
    ensures !Touches(h, n, id) ==> (Holds(Replay(h, n + 1), id, worker) <==> Holds(Replay(h, n), id, worker))
    ensures Touches(h, n, id) ==>
              (Holds(Replay(h, n + 1), id, worker) <==> h[n].ClaimScript? && h[n].owner == worker)
  {
    if h[n].ReclaimScript? {
      ReturnedMeans(Replay(h, n), h[n].expired);
    }
  }

  // ---------- Deadlines ----------

  /** The script sets the deadline of this id: it claims the id, or renews it for the
      worker that made the latest claim. */
  ghost predicate Sets(h: seq<Script>, k: nat, id: string)
    requires k < |h|
  {
    || (h[k].ClaimScript? && Touches(h, k, id))
    || (h[k].ExtendScript? && h[k].id == id && exists i :: LatestClaim(h, k, i, id, h[k].owner))
  }

  /** Among the first n scripts, number i is the last to set the deadline, and nobody acked,
      requeued or reclaimed the id since. */
  ghost predicate LatestSetting(h: seq<Script>, n: nat, i: nat, id: string)
    requires n <= |h|
  {
    i < n && Sets(h, i, id) && forall k :: i < k < n ==> !Sets(h, k, id) && !Touches(h, k, id)
  }

  function DeadlineIn(script: Script): int
    requires script.ClaimScript? || script.ExtendScript?
  {
    script.deadline
  }

  /** An id is leased iff some claim or renewal of it still stands, and its deadline is the
      one that the latest of these was given. */
  lemma DeadlineIsLatest(h: seq<Script>, n: nat, id: string)
    requires n <= |h|
    ensures id in Replay(h, n).leases <==> exists i: nat :: LatestSetting(h, n, i, id)
    ensures forall i: nat :: LatestSetting(h, n, i, id) ==> Replay(h, n).leases[id] == DeadlineIn(h[i])
  {
    if id in Replay(h, n).leases {
      var i := StandingSetting(h, n, id);
    }
    forall i: nat | LatestSetting(h, n, i, id)
      ensures id in Replay(h, n).leases && Replay(h, n).leases[id] == DeadlineIn(h[i])
    {
      SettingStands(h, n, i, id);
    }
  }

  lemma {:induction false} StandingSetting(h: seq<Script>, n: nat, id: string) returns (i: nat)
    requires n <= |h| && id in Replay(h, n).leases
    ensures LatestSetting(h, n, i, id)
  {
    OneMoreDeadline(h, n - 1, id);
    if Sets(h, n - 1, id) {
      i := n - 1;
    } else {
      i := StandingSetting(h, n - 1, id);
    }
  }

  lemma {:induction false} SettingStands(h: seq<Script>, n: nat, i: nat, id: string)
    requires n <= |h| && LatestSetting(h, n, i, id)
    ensures id in Replay(h, n).leases && Replay(h, n).leases[id] == DeadlineIn(h[i])
  {
    OneMoreDeadline(h, n - 1, id);
    SettingBefore(h, n - 1, i, id);
    if !Sets(h, n - 1, id) {
      SettingStands(h, n - 1, i, id);
    }
  }

  lemma SettingBefore(h: seq<Script>, n: nat, i: nat, id: string)
    requires n < |h| && LatestSetting(h, n + 1, i, id)
    ensures if Sets(h, n, id) then i == n else !Touches(h, n, id) && LatestSetting(h, n, i, id)
  {
  }

  lemma OneMoreDeadline(h: seq<Script>, n: nat, id: string)
    requires n < |h|
    ensures Sets(h, n, id) ==>
              id in Replay(h, n + 1).leases && Replay(h, n + 1).leases[id] == DeadlineIn(h[n])
    ensures !Sets(h, n, id) && Touches(h, n, id) ==> id !in Replay(h, n + 1).leases
    ensures !Sets(h, n, id) && !Touches(h, n, id) ==>
              && (id in Replay(h, n + 1).leases <==> id in Replay(h, n).leases)
              && (id in Replay(h, n).leases ==> Replay(h, n + 1).leases[id] == Replay(h, n).leases[id])
  {
    if h[n].ReclaimScript? {
      ReturnedMeans(Replay(h, n), h[n].expired);
    }
    if h[n].ExtendScript? {
      ExtendableIffLatestClaim(h, n, h[n].id, h[n].owner);
    }
  }

  /** No reclaim before the latest deadline returns the id: a worker that claims or renews
      in time keeps its lease. */
  lemma RenewedIsNotReclaimed(h: seq<Script>, n: nat, i: nat, id: string)
    requires History(h) && n < |h| && h[n].ReclaimScript? && LatestSetting(h, n, i, id)
    requires h[n].now < DeadlineIn(h[i])
    ensures id !in h[n].expired && id in Replay(h, n + 1).leases
    ensures Replay(h, n + 1).leases[id] == DeadlineIn(h[i])
  {
    DeadlineIsLatest(h, n, id);
    assert Possible(Replay(h, n), h[n]);
    ReturnedMeans(Replay(h, n), h[n].expired);
  }

  // ---------- Presence and counts ----------

  predicate Present(q: QueueState, id: string) {
    id in q.ready || id in q.leases
  }

  /** Only an ack makes a present id absent. */
  lemma OnlyAckRemoves(q: QueueState, script: Script, id: string)
    requires Possible(q, script) && Present(q, id)
    ensures Present(After(q, script), id) || script == AckScript(id)
  {
    match script {
      case ReclaimScript(_, _, expired) =>
        ReturnedMeans(q, expired);
        ReverseKeeps(expired, id);
      case ClaimScript(_, _) =>
        if q.ready != [] {
          assert q.ready == q.ready[..|q.ready| - 1] + [q.ready[|q.ready| - 1]];
        }
      case _ =>
    }
  }

  function Total(q: QueueState): nat {
    |q.ready| + |q.leases|
  }

  /** Entries come from pushes and from requeues of ids that hold no lease, and go by
      acks of leased ids and when a claim pops an id that already holds a lease. */
  function Change(q: QueueState, script: Script): int {
    match script
    case PushScript(_) => 1
    case ClaimScript(_, _) => if Next(q).Some? && Next(q).value in q.leases then -1 else 0
    case ExtendScript(_, _, _) => 0
    case AckScript(id) => if id in q.leases then -1 else 0
    case RequeueScript(id) => if id in q.leases then 0 else 1
    case ReclaimScript(_, _, _) => 0
  }

  lemma TotalChanges(q: QueueState, script: Script)
    requires Possible(q, script)
    ensures Total(After(q, script)) == Total(q) + Change(q, script)
  {
    match script {
      case ClaimScript(owner, deadline) => ClaimMovesOne(q, owner, deadline);
      case ExtendScript(id, owner, deadline) => ExtendMovesNone(q, id, owner, deadline);
      case AckScript(id) => DropOne(q.leases, id);
      case RequeueScript(id) => DropOne(q.leases, id);
      case ReclaimScript(now, limit, expired) => ReclaimMovesAll(q, now, limit, expired);
      case _ =>
    }
  }

  lemma ClaimMovesOne(q: QueueState, owner: string, deadline: int)
    ensures Total(Claimed(q, owner, deadline)) == Total(q) + Change(q, ClaimScript(owner, deadline))
  {
    if Next(q).Some? {
      AddOne(q.leases, Next(q).value, deadline);
    }
  }

  lemma ExtendMovesNone(q: QueueState, id: string, owner: string, deadline: int)
    ensures Total(Extended(q, id, owner, deadline)) == Total(q)
  {
    if Holds(q, id, owner) {
      assert q.leases[id := deadline].Keys == q.leases.Keys;
    }
  }

  lemma ReclaimMovesAll(q: QueueState, now: int, limit: int, expired: seq<string>)
    requires IsExpired(q.leases, now, Batch(limit), expired)
    ensures Total(Returned(q, expired)) == Total(q)
  {
    ReturnedMeans(q, expired);
    ReverseKeeps(expired, "");
    NoDupCardinality(expired);
    assert Elems(expired) <= q.leases.Keys;
    DropCount(q.leases, Elems(expired));
  }

  lemma AddOne(m: map<string, int>, id: string, deadline: int)
    ensures |m[id := deadline]| == |m| + (if id in m then 0 else 1)
  {
    assert m[id := deadline].Keys == m.Keys + {id};
  }

  lemma DropCount(m: map<string, int>, ids: set<string>)
    requires ids <= m.Keys
    ensures |m - ids| == |m| - |ids|
  {
    assert (m - ids).Keys == m.Keys - ids;
  }

  lemma DropOne(m: map<string, int>, id: string)
    ensures |m - {id}| == |m| - (if id in m then 1 else 0)
  {
    if id in m {
      DropCount(m, {id});
    } else {
      assert m - {id} == m;
    }
  }

  // ---------- The order of claims ----------

  /** The ids that the next n claims take, in order. */
  function Claims(q: QueueState, n: nat): seq<string>
    decreases n
  {
    if n == 0 || q.ready == [] then []
    else [q.ready[|q.ready| - 1]] + Claims(Claimed(q, "", 0), n - 1)
  }

  /** Claims drain the ready list from its far end, whatever owner and deadline they give. */
  lemma {:induction false} ClaimsReverse(q: QueueState, n: nat)
    requires n == |q.ready|
    ensures Claims(q, n) == Reverse(q.ready)
    decreases n
  {
    if n > 0 {
      ClaimsReverse(Claimed(q, "", 0), n - 1);
    }
  }

  lemma {:induction false} ReverseConcat(s: seq<string>, t: seq<string>)
    ensures Reverse(s + t) == Reverse(t) + Reverse(s)
  {
    if t == [] {
      assert s + t == s;
    } else {
      assert (s + t)[..|s + t| - 1] == s + t[..|t| - 1];
      ReverseConcat(s, t[..|t| - 1]);
    }
  }

  lemma {:induction false} ReverseTwice(s: seq<string>)
    ensures Reverse(Reverse(s)) == s
  {
    if s != [] {
      ReverseTwice(s[..|s| - 1]);
      ReverseConcat([s[|s| - 1]], Reverse(s[..|s| - 1]));
      assert Reverse([s[|s| - 1]]) == [s[|s| - 1]] + Reverse([]);
    }
  }

  /** A reclaim takes exactly the expired ids out of the lease set, up to the limit and
      soonest first; claims then take what was ready before, and after that the
      reclaimed ids in deadline order. */
  lemma ReclaimedComeInDeadlineOrder(q: QueueState, now: int, limit: int, expired: seq<string>)
    requires IsExpired(q.leases, now, Batch(limit), expired)
    ensures var q2 := After(q, ReclaimScript(now, limit, expired));
            && q2.leases == q.leases - Elems(expired)
            && Claims(q2, |q2.ready|) == Claims(q, |q.ready|) + expired
  {
    var q2 := Returned(q, expired);
    ReturnedMeans(q, expired);
    ClaimsReverse(q, |q.ready|);
    ClaimsReverse(q2, |q2.ready|);
    ReverseConcat(Reverse(expired), q.ready);
    ReverseTwice(expired);
  }

  // ---------- Acks do not ask who asks ----------

  /** A duplicate delivery takes the queue lease away from the worker running the job:
      its claim overwrites the owner, and dropping it acks the job for everybody. */
  lemma DuplicateDropBreaksLease(owner: string, other: string, job: string, deadline: int)
    requires owner != other
    ensures var h := [PushScript(job), ClaimScript(owner, deadline), PushScript(job), ClaimScript(other, deadline),
                      AckScript(job)];
            && History(h) && Holds(Replay(h, 3), job, owner)
            && !Holds(Replay(h, 4), job, owner)
            && !Present(Replay(h, 5), job)
  {
    var h := [PushScript(job), ClaimScript(owner, deadline), PushScript(job), ClaimScript(other, deadline),
              AckScript(job)];
    assert Replay(h, 1) == QueueState([job], map[], map[]);
    assert Replay(h, 2) == QueueState([], map[job := deadline], map[job := owner]);
    assert Replay(h, 3) == QueueState([job], map[job := deadline], map[job := owner]);
    assert Replay(h, 4) == QueueState([], map[job := deadline], map[job := other]);
    assert Replay(h, 5) == QueueState([], map[], map[]);
  }
}
