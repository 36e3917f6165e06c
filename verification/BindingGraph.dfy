/** Cycle detection among mirrored targets: Kahn's algorithm on the "same target as" graph. */
module BindingGraph {
  import opened Bytes
  import opened Sequences

  type Actor = u8

  /** (a, b): actor a mirrors actor b. */
  type Edge = (Actor, Actor)

  ghost predicate IsWalk(edges: seq<Edge>, p: seq<Actor>) {
    forall i | 0 <= i < |p| - 1 :: (p[i], p[i + 1]) in edges
  }

  /** Following bindings from some actor leads back to it. */
  ghost predicate IsCycle(edges: seq<Edge>, p: seq<Actor>) {
    |p| >= 2 && p[0] == p[|p| - 1] && IsWalk(edges, p)
  }

  ghost predicate Cyclic(edges: seq<Edge>) {
    exists p :: IsCycle(edges, p)
  }

  function AllNodes(edges: seq<Edge>): set<Actor> {
    (set e | e in edges :: e.0) + (set e | e in edges :: e.1)
  }

  // ---------------------------------------------------------------- degrees

  /** How many bindings of a still lead to an actor that is not done. */
  function Pending(edges: seq<Edge>, a: Actor, done: set<Actor>): nat {
    if edges == [] then 0
    else (if edges[0].0 == a && edges[0].1 !in done then 1 else 0) + Pending(edges[1..], a, done)
  }

  function EdgeCount(edges: seq<Edge>, a: Actor, b: Actor): nat {
    if edges == [] then 0 else (if edges[0] == (a, b) then 1 else 0) + EdgeCount(edges[1..], a, b)
  }

  lemma {:induction false} PendingDone(edges: seq<Edge>, a: Actor, done: set<Actor>, u: Actor)
    requires u !in done
    ensures Pending(edges, a, done) == Pending(edges, a, done + {u}) + EdgeCount(edges, a, u)
  {
    if edges != [] { PendingDone(edges[1..], a, done, u); }
  }

  lemma {:induction false} PendingEdge(edges: seq<Edge>, a: Actor, done: set<Actor>)
    ensures Pending(edges, a, done) > 0 <==> exists b :: (a, b) in edges && b !in done
  {
    if edges != [] {
      PendingEdge(edges[1..], a, done);
      assert edges == [edges[0]] + edges[1..];
      if edges[0].0 == a && edges[0].1 !in done {
        assert (a, edges[0].1) in edges;
      }
    }
  }

  lemma {:induction false} CountsSnoc(edges: seq<Edge>, e: Edge, a: Actor, b: Actor, done: set<Actor>)
    ensures Pending(edges + [e], a, done) == Pending(edges, a, done) + if e.0 == a && e.1 !in done then 1 else 0
    ensures EdgeCount(edges + [e], a, b) == EdgeCount(edges, a, b) + if e == (a, b) then 1 else 0
  {
    if edges != [] {
      assert (edges + [e])[1..] == edges[1..] + [e];
      CountsSnoc(edges[1..], e, a, b, done);
    } else {
      assert edges + [e] == [e];
    }
  }

  // ---------------------------------------------------------------- pigeonhole

  lemma {:induction false} DistinctFit(p: seq<Actor>, s: set<Actor>)
    requires forall i | 0 <= i < |p| :: p[i] in s
    requires forall i, j | 0 <= i < j < |p| :: p[i] != p[j]
    ensures |p| <= |s|
    decreases |p|
  {
    if p != [] {
      DistinctFit(p[1..], s - {p[0]});
    }
  }

  lemma {:induction false} WalkOn(edges: seq<Edge>, next: map<Actor, Actor>, a: Actor, n: nat) returns (p: seq<Actor>)
    requires a in next
    requires forall x | x in next :: next[x] in next && (x, next[x]) in edges
    ensures |p| == n + 1 && p[0] == a && IsWalk(edges, p) && forall i | 0 <= i < |p| :: p[i] in next
    decreases n
  {
    if n == 0 {
      p := [a];
    } else {
      var q := WalkOn(edges, next, next[a], n - 1);
      p := [a] + q;
    }
  }

  /** A set whose members all mirror a member of the set contains a cycle. */
  lemma ClosedSetHasCycle(edges: seq<Edge>, rest: set<Actor>)
    requires rest != {}
    requires forall x | x in rest :: exists y :: y in rest && (x, y) in edges
    ensures Cyclic(edges)
  {
    var next: map<Actor, Actor> := map x | x in rest :: var y :| y in rest && (x, y) in edges; y;
    MapHasCycle(edges, next);
  }

  lemma MapHasCycle(edges: seq<Edge>, next: map<Actor, Actor>)
    requires next.Keys != {}
    requires forall x | x in next :: next[x] in next && (x, next[x]) in edges
    ensures Cyclic(edges)
  {
    var a :| a in next.Keys;
    var p := WalkOn(edges, next, a, |next.Keys|);
    if forall i, j | 0 <= i < j < |p| :: p[i] != p[j] {
      DistinctFit(p, next.Keys);
    } else {
      var i, j :| 0 <= i < j < |p| && p[i] == p[j];
      WalkSlice(edges, p, i, j);
    }
  }

  lemma WalkSlice(edges: seq<Edge>, p: seq<Actor>, i: nat, j: nat)
    requires IsWalk(edges, p) && i < j < |p| && p[i] == p[j]
    ensures IsCycle(edges, p[i..j + 1])
  {
    var c := p[i..j + 1];
    forall k | 0 <= k < |c| - 1 ensures (c[k], c[k + 1]) in edges {
      assert (p[i + k], p[i + k + 1]) in edges;
    }
  }

  /** If every binding leads to an earlier place of the list, nothing leads back to itself. */
  lemma RankedIsAcyclic(edges: seq<Edge>, rank: Actor -> int)
    requires forall e | e in edges :: rank(e.1) < rank(e.0)
    ensures !Cyclic(edges)
  {
    if Cyclic(edges) {
      var p :| IsCycle(edges, p);
      RankFalls(edges, rank, p);
    }
  }

  lemma {:induction false} RankFalls(edges: seq<Edge>, rank: Actor -> int, p: seq<Actor>)
    requires forall e | e in edges :: rank(e.1) < rank(e.0)
    requires |p| >= 2 && IsWalk(edges, p)
    ensures rank(p[|p| - 1]) < rank(p[0])
  {
    assert (p[0], p[1]) in edges;
    if |p| > 2 {
      RankFalls(edges, rank, p[1..]);
    }
  }

  // ---------------------------------------------------------------- Kahn's algorithm

  lemma NoEdges()
    ensures forall a: Actor, done: set<Actor> :: Pending([], a, done) == 0
    ensures forall a: Actor, b: Actor :: EdgeCount([], a, b) == 0
  {
  }

  lemma {:induction false} CountedEdge(edges: seq<Edge>, a: Actor, b: Actor)
    requires EdgeCount(edges, a, b) > 0
    ensures (a, b) in edges
  {
    if edges[0] != (a, b) { CountedEdge(edges[1..], a, b); }
  }

  function Look(m: map<Actor, seq<Actor>>, a: Actor): seq<Actor> {
    if a in m then m[a] else []
  }

  /** The adjacency lists in both directions, and the nodes they mention. */
  method BuildLists(edges: seq<Edge>)
    returns (deps: map<Actor, seq<Actor>>, rdeps: map<Actor, seq<Actor>>, nodes: set<Actor>)
    ensures nodes == AllNodes(edges)
    ensures forall a: Actor :: |Look(deps, a)| == Pending(edges, a, {})
    ensures forall a: Actor, b: Actor :: multiset(Look(rdeps, b))[a] == EdgeCount(edges, a, b)
  {
    hide Pending, EdgeCount;
    deps, rdeps, nodes := map[], map[], {};
    NoEdges();
    assert edges[..0] == [];
    for i := 0 to |edges|
      invariant nodes == AllNodes(edges[..i])
      invariant forall a: Actor :: |Look(deps, a)| == Pending(edges[..i], a, {})
      invariant forall a: Actor, b: Actor :: multiset(Look(rdeps, b))[a] == EdgeCount(edges[..i], a, b)
    {
      var e := edges[i];
      assert edges[..i + 1] == edges[..i] + [e];
      ghost var deps0, rdeps0 := deps, rdeps;
      nodes := nodes + {e.0, e.1};
      deps := deps[e.0 := Look(deps, e.0) + [e.1]];
      rdeps := rdeps[e.1 := Look(rdeps, e.1) + [e.0]];
      forall a: Actor ensures |Look(deps, a)| == Pending(edges[..i + 1], a, {}) {
        CountsSnoc(edges[..i], e, a, a, {});
        assert Look(deps, a) == if a == e.0 then Look(deps0, a) + [e.1] else Look(deps0, a);
      }
      forall a: Actor, b: Actor ensures multiset(Look(rdeps, b))[a] == EdgeCount(edges[..i + 1], a, b) {
        CountsSnoc(edges[..i], e, a, b, {});
        assert Look(rdeps, b) == if b == e.1 then Look(rdeps0, b) + [e.0] else Look(rdeps0, b);
      }
    }
    assert edges[..|edges|] == edges;
  }

  function Members(s: seq<Actor>): set<Actor> { set x | x in s }

  /** The state of the scan: `order` holds the actors taken off the queue, oldest first. */
  ghost predicate Scan(edges: seq<Edge>, indeg: map<Actor, nat>, q: seq<Actor>, order: seq<Actor>) {
    && indeg.Keys == AllNodes(edges)
    && (forall a | a in indeg :: indeg[a] == Pending(edges, a, Members(order)))
    && (forall a | a in indeg :: indeg[a] == 0 <==> a in order + q)
    && (forall a | a in order + q :: a in indeg)
    && Distinct(order + q)
  }

  /** Whatever an ordered actor mirrors comes before it. */
  ghost predicate Sorted(edges: seq<Edge>, order: seq<Actor>) {
    forall i, b | 0 <= i < |order| && (order[i], b) in edges :: b in order[..i]
  }

  lemma HeadIsNew(order: seq<Actor>, u: Actor, q: seq<Actor>)
    requires Distinct(order + ([u] + q))
    ensures u !in order && order + ([u] + q) == (order + [u]) + q
  {
    var s := order + ([u] + q);
    assert s[|order|] == u;
    forall i | 0 <= i < |order| ensures order[i] != u {
      assert s[i] == order[i];
    }
  }

  /** Taking u off the queue removes one pending binding per edge into u. */
  lemma PendingAfter(edges: seq<Edge>, order: seq<Actor>, u: Actor, mirrors: seq<Actor>, a: Actor)
    requires u !in order
    requires multiset(mirrors)[a] == EdgeCount(edges, a, u)
    ensures Pending(edges, a, Members(order)) == Pending(edges, a, Members(order + [u])) + multiset(mirrors)[a]
    ensures a in mirrors ==> a in AllNodes(edges)
  {
    PendingDone(edges, a, Members(order), u);
    assert Members(order + [u]) == Members(order) + {u};
    if a in mirrors { CountedEdge(edges, a, u); }
  }

  /** u is done: its mirrors lose one pending binding per edge, and those that reach zero are queued. */
  method Release(edges: seq<Edge>, indeg0: map<Actor, nat>, q0: seq<Actor>, u: Actor, mirrors: seq<Actor>, ghost order: seq<Actor>)
    returns (indeg: map<Actor, nat>, q: seq<Actor>)
    requires Scan(edges, indeg0, [u] + q0, order)
    requires forall a: Actor :: multiset(mirrors)[a] == EdgeCount(edges, a, u)
    ensures Scan(edges, indeg, q, order + [u])
  {
    HeadIsNew(order, u, q0);
    forall a: Actor
      ensures Pending(edges, a, Members(order)) == Pending(edges, a, Members(order + [u])) + multiset(mirrors)[a]
      ensures a in mirrors ==> a in AllNodes(edges)
    {
      PendingAfter(edges, order, u, mirrors, a);
    }
    indeg, q := Decrement(indeg0, q0, mirrors, order + [u]);
  }

  /** The inner loop: one decrement per edge, queueing whoever reaches zero. */
  method Decrement(indeg0: map<Actor, nat>, q0: seq<Actor>, mirrors: seq<Actor>, ghost done: seq<Actor>)
    returns (indeg: map<Actor, nat>, q: seq<Actor>)
    requires forall a | a in mirrors :: a in indeg0
    requires forall a | a in indeg0 :: multiset(mirrors)[a] <= indeg0[a] && (indeg0[a] == 0 <==> a in done + q0)
    requires forall a | a in done + q0 :: a in indeg0
    requires Distinct(done + q0)
    ensures indeg.Keys == indeg0.Keys
    ensures forall a | a in indeg :: indeg[a] + multiset(mirrors)[a] == indeg0[a] && (indeg[a] == 0 <==> a in done + q)
    ensures forall a | a in done + q :: a in indeg
    ensures Distinct(done + q)
  {
    hide Distinct;
    indeg, q := indeg0, q0;
    for k := 0 to |mirrors|
      invariant indeg.Keys == indeg0.Keys
      invariant forall a | a in indeg :: indeg[a] + multiset(mirrors[..k])[a] == indeg0[a]
      invariant forall a | a in indeg :: indeg[a] == 0 <==> a in done + q
      invariant forall a | a in done + q :: a in indeg
      invariant Distinct(done + q)
    {
      var w := mirrors[k];
      MirrorPending(mirrors, k);
      indeg := indeg[w := indeg[w] - 1];
      if indeg[w] == 0 {
        Enqueue(done, q, w);
        q := q + [w];
      }
    }
    assert mirrors[..|mirrors|] == mirrors;
  }

  lemma Enqueue(done: seq<Actor>, q: seq<Actor>, w: Actor)
    requires Distinct(done + q) && w !in done + q
    ensures Distinct(done + (q + [w]))
    ensures forall a :: a in done + (q + [w]) <==> a in done + q || a == w
  {
    assert done + (q + [w]) == (done + q) + [w];
  }

  lemma MirrorPending(mirrors: seq<Actor>, k: nat)
    requires k < |mirrors|
    ensures multiset(mirrors[..k + 1]) == multiset(mirrors[..k]) + multiset{mirrors[k]}
    ensures multiset(mirrors[..k])[mirrors[k]] < multiset(mirrors)[mirrors[k]]
  {
    assert mirrors[..k + 1] == mirrors[..k] + [mirrors[k]];
    assert mirrors == mirrors[..k + 1] + mirrors[k + 1..];
  }

  /** The actors with no bindings, in whatever order the hash map yields them. */
  method InitialQueue(indeg: map<Actor, nat>) returns (q: seq<Actor>)
    ensures Distinct(q) && forall a :: a in q <==> a in indeg && indeg[a] == 0
  {
    q := [];
    var todo := indeg.Keys;
    while todo != {}
      invariant todo <= indeg.Keys && Distinct(q)
      invariant forall a :: a in q <==> a in indeg && a !in todo && indeg[a] == 0
      decreases todo
    {
      var a :| a in todo;
      todo := todo - {a};
      if indeg[a] == 0 { q := q + [a]; }
    }
  }

  lemma ReleaseKeepsSorted(edges: seq<Edge>, indeg: map<Actor, nat>, u: Actor, q: seq<Actor>, order: seq<Actor>)
    requires Scan(edges, indeg, [u] + q, order) && Sorted(edges, order)
    ensures Sorted(edges, order + [u])
  {
    assert u in order + ([u] + q);
    PendingEdge(edges, u, Members(order));
    forall i, b | 0 <= i < |order + [u]| && ((order + [u])[i], b) in edges ensures b in (order + [u])[..i] {
      if i < |order| {
        assert (order + [u])[..i] == order[..i];
      } else {
        assert (order + [u])[..i] == order && b in Members(order);
      }
    }
  }

  /** Kahn's scan: how many nodes come off the queue, out of how many. */
  method CountSorted(edges: seq<Edge>) returns (seen: nat, total: nat)
    ensures total == |AllNodes(edges)|
    ensures seen == total <==> !Cyclic(edges)
  {
    hide Pending, EdgeCount, AllNodes, Look, Distinct;
    var deps, rdeps, nodes := BuildLists(edges);
    var indeg: map<Actor, nat> := map a | a in nodes :: |Look(deps, a)|;
    var q := InitialQueue(indeg);
    seen := 0;
    ghost var order: seq<Actor> := [];
    assert Members(order) == {} && order + q == q;
    assert Scan(edges, indeg, q, order);
    while q != []
      invariant Scan(edges, indeg, q, order) && Sorted(edges, order) && seen == |order|
      decreases |AllNodes(edges)| - seen
    {
      var u := q[0];
      assert [u] + q[1..] == q;
      ReleaseKeepsSorted(edges, indeg, u, q[1..], order);
      OrderFits(edges, indeg, q, order);
      indeg, q := Release(edges, indeg, q[1..], u, Look(rdeps, u), order);
      order := order + [u];
      seen := seen + 1;
    }
    total := |nodes|;
    ScanDecides(edges, indeg, order);
  }

  lemma OrderFits(edges: seq<Edge>, indeg: map<Actor, nat>, q: seq<Actor>, order: seq<Actor>)
    requires Scan(edges, indeg, q, order) && q != []
    ensures |order| < |AllNodes(edges)|
  {
    DistinctFit(order + q, AllNodes(edges));
  }

  /** When the queue is empty: all nodes were seen exactly when no actor leads back to itself. */
  lemma ScanDecides(edges: seq<Edge>, indeg: map<Actor, nat>, order: seq<Actor>)
    requires Scan(edges, indeg, [], order) && Sorted(edges, order)
    ensures |order| == |AllNodes(edges)| <==> !Cyclic(edges)
  {
    assert order + [] == order;
    var nodes, done := AllNodes(edges), Members(order);
    hide Distinct, AllNodes;
    CountMembers(order);
    assert done <= nodes;
    SubsetSize(done, nodes);
    if done == nodes {
      SortedIsAcyclic(edges, order);
    } else {
      LeftoverIsClosed(edges, indeg, order);
      ClosedSetHasCycle(edges, nodes - done);
    }
  }

  lemma SubsetSize(a: set<Actor>, b: set<Actor>)
    requires a <= b
    ensures |a| == |b| <==> a == b
    ensures a != b ==> b - a != {}
  {
    assert b == a + (b - a);
    assert |b| == |a| + |b - a|;
  }

  lemma LeftoverIsClosed(edges: seq<Edge>, indeg: map<Actor, nat>, order: seq<Actor>)
    requires Scan(edges, indeg, [], order)
    ensures var rest := AllNodes(edges) - Members(order);
            forall x | x in rest :: exists y :: y in rest && (x, y) in edges
  {
    assert order + [] == order;
    var rest := AllNodes(edges) - Members(order);
    forall x | x in rest ensures exists y :: y in rest && (x, y) in edges {
      PendingEdge(edges, x, Members(order));
      var y :| (x, y) in edges && y !in Members(order);
      assert y in rest;
    }
  }

  lemma {:induction false} CountMembers(s: seq<Actor>)
    requires Distinct(s)
    ensures |Members(s)| == |s|
  {
    if s != [] {
      CountMembers(s[1..]);
      assert Members(s) == {s[0]} + Members(s[1..]);
    }
  }

  function IndexIn(s: seq<Actor>, a: Actor): (i: nat)
    ensures i <= |s| && (a in s ==> i < |s| && s[i] == a) && a !in s[..i]
  {
    if s == [] || s[0] == a then 0 else 1 + IndexIn(s[1..], a)
  }

  lemma SortedIsAcyclic(edges: seq<Edge>, order: seq<Actor>)
    requires Sorted(edges, order) && Distinct(order) && Members(order) == AllNodes(edges)
    ensures !Cyclic(edges)
  {
    var rank := (a: Actor) => IndexIn(order, a) as int;
    forall e | e in edges ensures rank(e.1) < rank(e.0) {
      var i := IndexIn(order, e.0);
      assert e.0 in Members(order) && (order[i], e.1) in edges;
      var j :| 0 <= j < i && order[j] == e.1;
      assert order[IndexIn(order, e.1)] == order[j];
    }
    RankedIsAcyclic(edges, rank);
  }
}
