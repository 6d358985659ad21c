/** Dependency graphs: paths, cycles, topological orders, and ranks. A graph maps each
    step id to the ids it depends on. */
module Graphs {
  import opened Basics

  type Graph = map<string, seq<string>>

  /** Dependencies are themselves nodes. */
  ghost predicate Closed(g: Graph) {
    forall id, d :: id in g && d in g[id] ==> d in g
  }

  /** Each element depends on the next one. */
  ghost predicate DepPath(g: Graph, p: seq<string>) {
    && |p| >= 1
    && (forall i :: 0 <= i < |p| ==> p[i] in g)
    && (forall i :: 0 <= i < |p| - 1 ==> p[i + 1] in g[p[i]])
  }

  ghost predicate IsCycle(g: Graph, p: seq<string>) {
    DepPath(g, p) && |p| >= 2 && p[0] == p[|p| - 1]
  }

  ghost predicate HasCyclicPath(g: Graph) {
    exists p :: IsCycle(g, p)
  }

  /** u lies strictly upstream of s: some non-empty dependency path leads from s to u. */
  ghost predicate Upstream(g: Graph, u: string, s: string) {
    exists p :: DepPath(g, p) && |p| >= 2 && p[0] == s && p[|p| - 1] == u
  }

  /** Built up one id at a time, no id twice, every id after all of its dependencies. */
  ghost predicate Layered(g: Graph, order: seq<string>) {
    order == [] ||
    var (front, last) := (order[..|order| - 1], order[|order| - 1]);
    Layered(g, front) && last !in front && last in g && (forall d :: d in g[last] ==> d in front)
  }

  ghost predicate TopoOrder(g: Graph, order: seq<string>) {
    Layered(g, order) && Elems(order) == g.Keys
  }

  ghost predicate Acyclic(g: Graph) {
    exists order :: TopoOrder(g, order)
  }

  lemma PathCons(g: Graph, id: string, rest: seq<string>)
    requires id in g && DepPath(g, rest) && rest[0] in g[id]
    ensures DepPath(g, [id] + rest)
  {
    var p := [id] + rest;
    forall i | 0 <= i < |p| - 1 ensures p[i + 1] in g[p[i]] {
      if i > 0 { assert rest[i - 1 + 1] in g[rest[i - 1]]; }
    }
  }

  // ---------- Ranks ----------

  ghost function Position(order: seq<string>, id: string): nat {
    if order == [] then 0
    else if order[|order| - 1] == id then |order| - 1
    else Position(order[..|order| - 1], id)
  }

  ghost function Rank(g: Graph, id: string): nat
    requires Acyclic(g)
  {
    var order :| TopoOrder(g, order);
    Position(order, id)
  }

  lemma {:induction false} PositionBound(order: seq<string>, id: string)
    requires id in order
    ensures Position(order, id) < |order|
  {
    var last := |order| - 1;
    if order[last] != id {
      assert order == order[..last] + [order[last]];
      PositionBound(order[..last], id);
    }
  }

  lemma {:induction false} DependenciesComeFirst(g: Graph, order: seq<string>, id: string, dep: string)
    requires Layered(g, order) && id in order && id in g && dep in g[id]
    ensures dep in order && Position(order, dep) < Position(order, id)
  {
    var last := |order| - 1;
    var front := order[..last];
    assert order == front + [order[last]];
    if order[last] == id {
      PositionBound(front, dep);
    } else {
      DependenciesComeFirst(g, front, id, dep);
    }
  }

  lemma RankDecreases(g: Graph, id: string, dep: string)
    requires Acyclic(g) && id in g && dep in g[id]
    ensures dep in g && Rank(g, dep) < Rank(g, id)
  {
    var order :| TopoOrder(g, order) && Rank(g, id) == Position(order, id) && Rank(g, dep) == Position(order, dep);
    assert id in Elems(order);
    DependenciesComeFirst(g, order, id, dep);
    assert dep in Elems(order);
  }

  // ---------- Cycles and orders exclude each other ----------

  /** Ranks fall along every dependency path. */
  lemma {:induction false} RankFallsAlongPath(g: Graph, p: seq<string>, k: nat)
    requires Acyclic(g) && DepPath(g, p) && k < |p|
    ensures Rank(g, p[k]) + k <= Rank(g, p[0])
  {
    if k > 0 {
      RankFallsAlongPath(g, p, k - 1);
      RankDecreases(g, p[k - 1], p[k - 1 + 1]);
    }
  }

  lemma OrderExcludesCycle(g: Graph)
    requires Acyclic(g)
    ensures !HasCyclicPath(g)
  {
    forall p | IsCycle(g, p) ensures false {
      RankFallsAlongPath(g, p, |p| - 1);
    }
  }

  /** A non-empty set in which everybody depends on somebody of the set contains a cycle:
      a walk that never repeats would exhaust the set. */
  lemma {:induction false} StuckSetHasCycle(g: Graph, stuck: set<string>, blocker: map<string, string>,
                                            walk: seq<string>)
    requires stuck <= g.Keys && blocker.Keys == stuck
    requires forall id {:trigger blocker[id]} :: id in stuck ==> blocker[id] in g[id] && blocker[id] in stuck
    requires DepPath(g, walk) && Elems(walk) <= stuck
    ensures HasCyclicPath(g)
    decreases stuck - Elems(walk)
  {
    var last := walk[|walk| - 1];
    assert last in Elems(walk);
    var next := blocker[last];
    var longer := walk + [next];
    assert DepPath(g, longer);
    if next in walk {
      var i :| 0 <= i < |walk| && walk[i] == next;
      var cycle := longer[i..];
      assert IsCycle(g, cycle);
    } else {
      assert Elems(longer) == Elems(walk) + {next};
      StuckSetHasCycle(g, stuck, blocker, longer);
    }
  }

  lemma {:induction false} LayeredNoDup(g: Graph, order: seq<string>)
    requires Layered(g, order)
    ensures NoDup(order) && Elems(order) <= g.Keys
  {
    if order != [] {
      LayeredNoDup(g, order[..|order| - 1]);
    }
  }

  /** A layered sequence that cannot be extended covers the graph iff the graph is acyclic. */
  lemma MaximalLayering(g: Graph, done: seq<string>)
    requires Closed(g) && Layered(g, done)
    requires forall c {:trigger g[c]} :: c in g && c !in done ==> exists d :: d in g[c] && d !in done
    ensures |done| == |g.Keys| <==> Acyclic(g)
    ensures Acyclic(g) <==> !HasCyclicPath(g)
  {
    LayeredNoDup(g, done);
    NoDupCardinality(done);
    SubsetCardinality(Elems(done), g.Keys);
    if Elems(done) == g.Keys {
      assert TopoOrder(g, done);
    } else {
      StuckLayering(g, Elems(done));
    }
    if Acyclic(g) { OrderExcludesCycle(g); }
  }

  lemma StuckLayering(g: Graph, done: set<string>)
    requires Closed(g) && done < g.Keys
    requires forall c {:trigger g[c]} :: c in g && c !in done ==> exists d :: d in g[c] && d !in done
    ensures HasCyclicPath(g)
  {
    var stuck := g.Keys - done;
    var blocker := map c | c in stuck :: var d :| d in g[c] && d !in done; d;
    var c :| c in g.Keys && c !in done;
    var walk := [c];
    assert Elems(walk) == {c};
    StuckSetHasCycle(g, stuck, blocker, walk);
  }
}
