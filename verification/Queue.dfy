/** The Redis work queue: a ready list, a lease set scored by deadline, and an owner
    hash, changed by atomic scripts. The wakeup hints of the notify list are left out. */
module Queues {
  import opened Basics

  /** The ready list is pushed on the left and popped on the right. */
  datatype QueueState = QueueState(ready: seq<string>, leases: map<string, int>, owners: map<string, string>)

  const EMPTY := QueueState([], map[], map[])

  const DEFAULT_RECLAIM_BATCH := 100

  // ---------- The scripts ----------

  function Pushed(q: QueueState, id: string): QueueState {
    q.(ready := [id] + q.ready)
  }

  /** The id a claim would take. */
  function Next(q: QueueState): Option<string> {
    if q.ready == [] then None else Some(q.ready[|q.ready| - 1])
  }

  function Claimed(q: QueueState, owner: string, deadline: int): QueueState {
    match Next(q)
    case None => q
    case Some(id) => QueueState(q.ready[..|q.ready| - 1], q.leases[id := deadline], q.owners[id := owner])
  }

  /** The extend script's two guards. */
  predicate Holds(q: QueueState, id: string, owner: string) {
    id in q.owners && q.owners[id] == owner && id in q.leases
  }

  function Extended(q: QueueState, id: string, owner: string, deadline: int): QueueState {
    if Holds(q, id, owner) then q.(leases := q.leases[id := deadline]) else q
  }

  /** Whoever asks: the owner is not checked. */
  function Acked(q: QueueState, id: string): QueueState {
    q.(leases := q.leases - {id}, owners := q.owners - {id})
  }

  /** Whoever asks: the owner is not checked. */
  function Requeued(q: QueueState, id: string): QueueState {
    Pushed(Acked(q, id), id)
  }

  /** Lease set order: by deadline, then by id. */
  predicate Sooner(leases: map<string, int>, a: string, b: string)
    requires a in leases && b in leases
  {
    leases[a] < leases[b] || (leases[a] == leases[b] && Less(a, b))
  }

  ghost predicate IsSoonest(leases: map<string, int>, id: string) {
    id in leases && forall b :: b in leases && b != id ==> Sooner(leases, id, b)
  }

  /** Up to `limit` ids with a deadline no later than `now`, soonest first. */
  ghost predicate IsExpired(leases: map<string, int>, now: int, limit: nat, ids: seq<string>) {
    && |ids| <= limit && NoDup(ids)
    && (forall a :: a in ids ==> a in leases && leases[a] <= now)
    && (forall i, j :: 0 <= i < j < |ids| ==> Sooner(leases, ids[i], ids[j]))
    && (forall a, b :: a in ids && b in leases && b !in ids ==> Sooner(leases, a, b))
    && (|ids| < limit ==> forall b :: b in leases && leases[b] <= now ==> b in ids)
  }

  /** At most `limit` of the given ids, and all of them if there are fewer. */
  ghost predicate UpTo(limit: int, ids: seq<string>, all: set<string>) {
    && |ids| <= limit && NoDup(ids) && (forall id :: id in ids ==> id in all)
    && (|ids| < limit ==> forall id :: id in all ==> id in ids)
  }

  /** Moves ids from the lease set to the ready list, one after the other. */
  function Returned(q: QueueState, ids: seq<string>): QueueState {
    if ids == [] then q
    else Requeued(Returned(q, ids[..|ids| - 1]), ids[|ids| - 1])
  }

  function Batch(limit: int): nat {
    if limit <= 0 then DEFAULT_RECLAIM_BATCH else limit
  }

  lemma SoonerTotal(leases: map<string, int>, a: string, b: string)
    requires a in leases && b in leases && a != b
    ensures Sooner(leases, a, b) <==> !Sooner(leases, b, a)
  {
    LessTotal(a, b);
  }

  lemma SoonerTransitive(leases: map<string, int>, a: string, b: string, c: string)
    requires a in leases && b in leases && c in leases
    requires Sooner(leases, a, b) && Sooner(leases, b, c)
    ensures Sooner(leases, a, c)
  {
    if leases[a] == leases[b] == leases[c] {
      LessTransitive(a, b, c);
    }
  }

  /** The expired ids are determined by the lease set. */
  lemma ExpiredUnique(leases: map<string, int>, now: int, limit: nat, s: seq<string>, t: seq<string>)
    requires IsExpired(leases, now, limit, s) && IsExpired(leases, now, limit, t)
    ensures s == t
  {
    NotLonger(leases, now, limit, s, t);
    NotLonger(leases, now, limit, t, s);
    PrefixAgrees(leases, now, limit, s, t, |s|);
  }

  lemma NotLonger(leases: map<string, int>, now: int, limit: nat, s: seq<string>, t: seq<string>)
    requires IsExpired(leases, now, limit, s) && IsExpired(leases, now, limit, t)
    ensures |t| <= |s|
  {
    if |s| < limit {
      NoDupCardinality(s);
      NoDupCardinality(t);
      SubsetCardinality(Elems(t), Elems(s));
    }
  }

  lemma {:induction false} PrefixAgrees(leases: map<string, int>, now: int, limit: nat, s: seq<string>, t: seq<string>,
                                        k: nat)
    requires IsExpired(leases, now, limit, s) && IsExpired(leases, now, limit, t)
    requires k <= |s| && k <= |t|
    ensures s[..k] == t[..k]
  {
    if k > 0 {
      PrefixAgrees(leases, now, limit, s, t, k - 1);
      if s[k - 1] != t[k - 1] {
        NotSoonerThan(leases, now, limit, s, t, k - 1);
        NotSoonerThan(leases, now, limit, t, s, k - 1);
        SoonerTotal(leases, s[k - 1], t[k - 1]);
      }
    }
  }

  /** If two listings agree before k, then t[k] is in no position before s[k]. */
  lemma NotSoonerThan(leases: map<string, int>, now: int, limit: nat, s: seq<string>, t: seq<string>, k: nat)
    requires IsExpired(leases, now, limit, s) && IsExpired(leases, now, limit, t)
    requires k < |s| && k < |t| && s[..k] == t[..k] && s[k] != t[k]
    ensures Sooner(leases, s[k], t[k])
  {
    assert forall i :: 0 <= i < k ==> s[i] == s[..k][i] == t[i];
  }

  // ---------- Moving a batch ----------

  function Reverse(s: seq<string>): seq<string> {
    if s == [] then [] else [s[|s| - 1]] + Reverse(s[..|s| - 1])
  }

  lemma {:induction false} ReturnedMeans(q: QueueState, ids: seq<string>)
    ensures Returned(q, ids).ready == Reverse(ids) + q.ready
    ensures Returned(q, ids).leases == q.leases - Elems(ids)
    ensures Returned(q, ids).owners == q.owners - Elems(ids)
  {
    if ids != [] {
      var front := ids[..|ids| - 1];
      ReturnedMeans(q, front);
      assert Elems(ids) == Elems(front) + {ids[|ids| - 1]};
    }
  }

  lemma {:induction false} ReverseKeeps(s: seq<string>, id: string)
    ensures id in Reverse(s) <==> id in s
    ensures |Reverse(s)| == |s|
  {
    if s != [] {
      ReverseKeeps(s[..|s| - 1], id);
    }
  }

  lemma {:induction false} ReverseAt(s: seq<string>, i: nat)
    requires i < |s|
    ensures |Reverse(s)| == |s| && Reverse(s)[|s| - 1 - i] == s[i]
  {
    ReverseKeeps(s, "");
    if i < |s| - 1 {
      ReverseAt(s[..|s| - 1], i);
    }
  }

  /** The moved ids stand before the ready ones, the first of them last. */
  lemma ReturnedReady(q: QueueState, ids: seq<string>)
    ensures |Returned(q, ids).ready| == |ids| + |q.ready| && Returned(q, ids).ready[|ids|..] == q.ready
    ensures forall i :: 0 <= i < |ids| ==> Returned(q, ids).ready[|ids| - 1 - i] == ids[i]
  {
    ReturnedMeans(q, ids);
    ReverseKeeps(ids, "");
    forall i | 0 <= i < |ids| ensures Returned(q, ids).ready[|ids| - 1 - i] == ids[i] {
      ReverseAt(ids, i);
    }
  }

  // ---------- The queue ----------

  class Queue {
    var ready: seq<string>
    var leases: map<string, int>
    var owners: map<string, string>

    ghost function State(): QueueState
      reads this
    {
      QueueState(ready, leases, owners)
    }

    constructor ()
      ensures State() == EMPTY
    {
      ready, leases, owners := [], map[], map[];
    }

    /** pushScript. */
    method Push(id: string)
      modifies this
      ensures State() == Pushed(old(State()), id)
      ensures ready == [id] + old(ready) && leases == old(leases) && owners == old(owners)
    {
      ready := [id] + ready;
    }

    /** claimScript: the id is `None` when nothing is ready. */
    method Claim(owner: string, deadline: int) returns (id: Option<string>)
      modifies this
      ensures id == Next(old(State()))
      ensures State() == Claimed(old(State()), owner, deadline)
      ensures id.None? <==> old(ready) == []
      ensures id.None? ==> State() == old(State())
      ensures id.Some? ==>
                && old(ready) == ready + [id.value]
                && leases == old(leases)[id.value := deadline] && owners == old(owners)[id.value := owner]
    {
      if |ready| == 0 {
        return None;
      }
      var last := ready[|ready| - 1];
      ready := ready[..|ready| - 1];
      leases := leases[last := deadline];
      owners := owners[last := owner];
      id := Some(last);
    }

    /** extendScript. */
    method Extend(id: string, owner: string, deadline: int) returns (held: bool)
      modifies this
      ensures held <==> Holds(old(State()), id, owner)
      ensures State() == Extended(old(State()), id, owner, deadline)
      ensures held <==> id in old(owners) && old(owners)[id] == owner && id in old(leases)
      ensures leases == (if held then old(leases)[id := deadline] else old(leases))
      ensures ready == old(ready) && owners == old(owners)
    {
      if id !in owners || owners[id] != owner {
        return false;
      }
      if id !in leases {
        return false;
      }
      leases := leases[id := deadline];
      held := true;
    }

    /** ackScript. */
    method Ack(id: string)
      modifies this
      ensures State() == Acked(old(State()), id)
      ensures leases == old(leases) - {id} && owners == old(owners) - {id} && ready == old(ready)
    {
      leases := leases - {id};
      owners := owners - {id};
    }

    /** requeueScript. */
    method Requeue(id: string)
      modifies this
      ensures State() == Requeued(old(State()), id)
      ensures leases == old(leases) - {id} && owners == old(owners) - {id} && ready == [id] + old(ready)
    {
      leases := leases - {id};
      owners := owners - {id};
      ready := [id] + ready;
    }

    /** reclaimScript: the range query, then one move per expired id. The soonest ends up
        closest to the end that claims take from. */
    method Reclaim(now: int, limit: int) returns (expired: seq<string>)
      modifies this
      ensures IsExpired(old(leases), now, Batch(limit), expired)
      ensures State() == Returned(old(State()), expired)
      ensures UpTo(if limit > 0 then limit else 100, expired, set b | b in old(leases) && old(leases)[b] <= now)
      ensures forall i, j :: 0 <= i < j < |expired| ==>
                old(leases)[expired[i]] < old(leases)[expired[j]]
                || (old(leases)[expired[i]] == old(leases)[expired[j]] && Less(expired[i], expired[j]))
      ensures forall a, b :: a in expired && b in old(leases) && b !in expired ==>
                old(leases)[a] < old(leases)[b] || (old(leases)[a] == old(leases)[b] && Less(a, b))
      ensures leases == old(leases) - Elems(expired) && owners == old(owners) - Elems(expired)
      ensures |ready| == |expired| + |old(ready)| && ready[|expired|..] == old(ready)
      ensures forall i :: 0 <= i < |expired| ==> ready[|expired| - 1 - i] == expired[i]
    {
      expired := RangeByScore(leases, now, Batch(limit));
      ExpiredMeans(leases, now, limit, expired);
      ReturnedMeans(State(), expired);
      ReturnedReady(State(), expired);
      MoveAll(expired);
    }

    method MoveAll(ids: seq<string>)
      modifies this
      ensures State() == Returned(old(State()), ids)
    {
      for k := 0 to |ids|
        invariant State() == Returned(old(State()), ids[..k])
      {
        assert ids[..k + 1][..k] == ids[..k];
        Requeue(ids[k]);
      }
      assert ids[..|ids|] == ids;
    }
  }

  /** What the range query and the default limit come to. */
  lemma ExpiredMeans(leases: map<string, int>, now: int, limit: int, ids: seq<string>)
    requires IsExpired(leases, now, Batch(limit), ids)
    ensures UpTo(if limit > 0 then limit else 100, ids, set b | b in leases && leases[b] <= now)
    ensures forall i, j :: 0 <= i < j < |ids| ==>
              leases[ids[i]] < leases[ids[j]] || (leases[ids[i]] == leases[ids[j]] && Less(ids[i], ids[j]))
    ensures forall a, b :: a in ids && b in leases && b !in ids ==>
              leases[a] < leases[b] || (leases[a] == leases[b] && Less(a, b))
  {
    forall i, j | 0 <= i < j < |ids|
      ensures leases[ids[i]] < leases[ids[j]] || (leases[ids[i]] == leases[ids[j]] && Less(ids[i], ids[j]))
    {
      assert Sooner(leases, ids[i], ids[j]);
    }
  }

  /** The `limit` soonest entries with a score of at most `now`, in order. */
  method RangeByScore(leases: map<string, int>, now: int, limit: nat) returns (ids: seq<string>)
    ensures IsExpired(leases, now, limit, ids)
  {
    ids := [];
    var rest := leases;
    var more := rest != map[];
    while |ids| < limit && more
      invariant rest.Keys == leases.Keys - Elems(ids)
      invariant forall b :: b in rest ==> rest[b] == leases[b]
      invariant |ids| <= limit && NoDup(ids)
      invariant forall a :: a in ids ==> a in leases && leases[a] <= now
      invariant forall i, j :: 0 <= i < j < |ids| ==> Sooner(leases, ids[i], ids[j])
      invariant forall a, b :: a in ids && b in rest ==> Sooner(leases, a, b)
      invariant !more ==> forall b :: b in rest ==> now < rest[b]
      invariant more ==> rest != map[]
      decreases rest.Keys, more
    {
      var first := Soonest(rest);
      if rest[first] > now {
        more := false;
      } else {
        ghost var before := ids;
        ids := ids + [first];
        assert Elems(ids) == Elems(before) + {first};
        rest := rest - {first};
        more := rest != map[];
      }
    }
    if |ids| < limit {
      forall b | b in leases && leases[b] <= now ensures b in ids {
        assert b in ids || b in rest;
      }
    }
  }

  method Soonest(leases: map<string, int>) returns (id: string)
    requires leases != map[]
    ensures IsSoonest(leases, id)
  {
    var todo := leases.Keys;
    id :| id in todo;
    todo := todo - {id};
    while todo != {}
      invariant todo <= leases.Keys && id in leases
      invariant forall b :: b in leases && b !in todo && b != id ==> Sooner(leases, id, b)
    {
      var other :| other in todo;
      todo := todo - {other};
      if id != other {
        SoonerTotal(leases, id, other);
      }
      if id != other && Sooner(leases, other, id) {
        forall b | b in leases && b !in todo && b != other ensures Sooner(leases, other, b) {
          if b != id {
            SoonerTransitive(leases, other, id, b);
          }
        }
        id := other;
      }
    }
  }
}
