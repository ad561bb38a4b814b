/** The roadmap's dependency graph: what a milestone depends on, and whether the graph is sound. */
module Roadmap {
  import opened Wrappers

  type Id = string

  /** Each known milestone and what it depends on, in listed order. */
  type Graph = map<Id, seq<Id>>

  predicate Edge(g: Graph, a: Id, b: Id) {
    a in g && b in g[a]
  }

  predicate IsPath(g: Graph, p: seq<Id>) {
    |p| > 0 && forall k :: 0 <= k < |p| - 1 ==> Edge(g, p[k], p[k + 1])
  }

  ghost predicate PathBetween(g: Graph, a: Id, b: Id, p: seq<Id>) {
    IsPath(g, p) && p[0] == a && p[|p| - 1] == b
  }

  /** The reflexive-transitive closure of `depends_on`. */
  ghost predicate Reaches(g: Graph, a: Id, b: Id) {
    exists p :: PathBetween(g, a, b, p)
  }

  predicate Dangling(g: Graph, a: Id, b: Id) {
    Edge(g, a, b) && b !in g
  }

  /** Some edge met on the way from `a` leads nowhere. */
  ghost predicate ReachesDangling(g: Graph, a: Id) {
    exists x, y :: Reaches(g, a, x) && Dangling(g, x, y)
  }

  ghost predicate HasDangling(g: Graph) {
    exists x, y :: Dangling(g, x, y)
  }

  ghost predicate IsCycle(g: Graph, p: seq<Id>) {
    IsPath(g, p) && |p| > 1 && p[0] == p[|p| - 1]
  }

  ghost predicate HasCycle(g: Graph) {
    exists p :: IsCycle(g, p)
  }

  // -------------------------------------------------------------------- closure

  lemma {:induction false} ReachesSelf(g: Graph, a: Id)
    ensures Reaches(g, a, a)
  {
    assert PathBetween(g, a, a, [a]);
  }

  lemma {:induction false} ReachesNext(g: Graph, a: Id, b: Id, c: Id)
    requires Reaches(g, a, b) && Edge(g, b, c)
    ensures Reaches(g, a, c)
  {
    var p :| PathBetween(g, a, b, p);
    assert PathBetween(g, a, c, p + [c]);
  }

  /** A set that holds the start and every dependency of its members holds everything reachable. */
  lemma {:induction false} ClosedHolds(g: Graph, members: set<Id>, p: seq<Id>, n: nat)
    requires IsPath(g, p) && n < |p| && p[0] in members
    requires forall x, y :: x in members && Edge(g, x, y) ==> y in members
    ensures p[n] in members
  {
    if n > 0 {
      ClosedHolds(g, members, p, n - 1);
      assert Edge(g, p[n - 1], p[n - 1 + 1]);
    }
  }

  /**
    `_dependency_closure`: exactly what the target reaches. It is refused exactly when the target is unknown or
    an edge it reaches dangles, and it ends on cyclic graphs too.
   */
  method DependencyClosure(g: Graph, target: Id) returns (r: Option<set<Id>>)
    ensures r.Some? <==> target in g && !ReachesDangling(g, target)
    ensures r.Some? ==> forall x :: x in r.value <==> Reaches(g, target, x)
  {
    if target !in g {
      return None;
    }
    ReachesSelf(g, target);
    var closure: set<Id> := {};
    var stack := [target];
    while stack != []
      invariant closure <= g.Keys && (forall x :: x in stack ==> x in g)
      invariant target in closure || target in stack
      invariant forall x :: x in closure || x in stack ==> Reaches(g, target, x)
      invariant forall x, y :: x in closure && Edge(g, x, y) ==> y in closure || y in stack
      decreases g.Keys - closure, |stack|
    {
      var current := stack[|stack| - 1];
      ghost var before := stack;
      stack := stack[..|stack| - 1];
      assert forall x :: x in before ==> x == current || x in stack;
      if current in closure {
        continue;
      }
      closure := closure + {current};
      var known := PushAll(g, target, current, stack);
      if known.None? {
        return None;
      }
      stack := known.value;
    }
    forall x | Reaches(g, target, x)
      ensures x in closure
    {
      var p :| PathBetween(g, target, x, p);
      ClosedHolds(g, closure, p, |p| - 1);
    }
    r := Some(closure);
  }

  /** The inner loop: every dependency is pushed, unless one is unknown. */
  method PushAll(g: Graph, ghost target: Id, current: Id, stack: seq<Id>) returns (r: Option<seq<Id>>)
    requires current in g && Reaches(g, target, current) && forall x :: x in stack ==> x in g
    ensures r.None? ==> ReachesDangling(g, target)
    ensures r.Some? ==> forall x :: x in r.value <==> x in stack || Edge(g, current, x)
    ensures r.Some? ==> forall x :: x in r.value ==> x in g
    ensures r.Some? ==> forall x :: Edge(g, current, x) ==> Reaches(g, target, x)
  {
    var next := stack;
    for k := 0 to |g[current]|
      invariant forall x :: x in next <==> x in stack || x in g[current][..k]
      invariant forall x :: x in next ==> x in g
    {
      var dependency := g[current][k];
      if dependency !in g {
        assert Dangling(g, current, dependency);
        return None;
      }
      next := next + [dependency];
    }
    forall x | Edge(g, current, x)
      ensures Reaches(g, target, x)
    {
      ReachesNext(g, target, current, x);
    }
    r := Some(next);
  }

  // -------------------------------------------------------------------- acyclic

  /** Every dependency of a listed milestone is listed before it. */
  ghost predicate Ordered(g: Graph, order: seq<Id>) {
    forall k, y :: 0 <= k < |order| && Edge(g, order[k], y) ==> y in order[..k]
  }

  lemma {:induction false} PathDescends(g: Graph, order: seq<Id>, p: seq<Id>, n: nat, k: nat)
    requires Ordered(g, order) && IsPath(g, p) && n < |p| && k < |order| && p[0] == order[k]
    ensures n == 0 || p[n] in order[..k]
  {
    if n > 0 {
      PathDescends(g, order, p, n - 1, k);
      assert Edge(g, p[n - 1], p[n - 1 + 1]);
      if n > 1 {
        var j :| 0 <= j < k && order[..k][j] == p[n - 1];
        assert p[n] in order[..j];
        assert p[n] in order[..k];
      }
    }
  }

  predicate Unique(order: seq<Id>) {
    forall i, j :: 0 <= i < j < |order| ==> order[i] != order[j]
  }

  /** An order of every milestone in which dependencies come first rules out cycles and dangling edges. */
  lemma {:induction false} OrderedIsSound(g: Graph, order: seq<Id>)
    requires Ordered(g, order) && Unique(order)
    requires forall x :: x in g <==> x in order
    ensures !HasCycle(g) && !HasDangling(g)
  {
    if HasCycle(g) {
      var p :| IsCycle(g, p);
      assert Edge(g, p[0], p[0 + 1]);
      var k :| 0 <= k < |order| && order[k] == p[0];
      PathDescends(g, order, p, |p| - 1, k);
      assert false;
    }
  }

  /** The two sets `_assert_acyclic` mutates, with the trail and the finishing order they stand for. */
  class DepthFirst {
    const g: Graph
    var visiting: set<Id>
    var visited: set<Id>
    ghost var trail: seq<Id>
    ghost var order: seq<Id>

    ghost predicate Valid()
      reads this
    {
      && visiting <= g.Keys
      && (forall x :: x in visiting <==> x in trail)
      && (|trail| > 0 ==> IsPath(g, trail))
      && (forall x :: x in visited <==> x in order)
      && visited <= g.Keys
      && visited !! visiting
      && Ordered(g, order) && Unique(order)
    }

    constructor (graph: Graph)
      ensures Valid() && g == graph && trail == [] && visited == {}
    {
      g, visiting, visited, trail, order := graph, {}, {}, [], [];
    }

    /** `visit`: fails only where the graph is unsound, and otherwise leaves the milestone finished. */
    method Visit(id: Id) returns (ok: bool)
      requires Valid()
      requires if |trail| == 0 then id in g else Edge(g, trail[|trail| - 1], id)
      modifies this
      ensures !ok ==> HasCycle(g) || HasDangling(g)
      ensures ok ==> Valid() && trail == old(trail) && visiting == old(visiting)
      ensures ok ==> id in visited && old(visited) <= visited
      decreases g.Keys - visiting, 1
    {
      if id in visiting {
        ghost var k :| 0 <= k < |trail| && trail[k] == id;
        assert IsCycle(g, trail[k..] + [id]);
        return false;
      }
      if id in visited {
        return true;
      }
      if id !in g {
        assert Dangling(g, trail[|trail| - 1], id);
        return false;
      }
      visiting, trail := visiting + {id}, trail + [id];
      ok := VisitAll(id);
      if ok {
        Finish(id);
        assert trail == old(trail);
      }
    }

    method VisitAll(id: Id) returns (ok: bool)
      requires Valid() && |trail| > 0 && trail[|trail| - 1] == id
      modifies this
      ensures !ok ==> HasCycle(g) || HasDangling(g)
      ensures ok ==> Valid() && trail == old(trail) && visiting == old(visiting) && old(visited) <= visited
      ensures ok ==> forall y :: Edge(g, id, y) ==> y in visited
      decreases g.Keys - visiting, 2
    {
      for k := 0 to |g[id]|
        invariant Valid() && trail == old(trail) && visiting == old(visiting) && old(visited) <= visited
        invariant forall y :: y in g[id][..k] ==> y in visited
      {
        ok := Visit(g[id][k]);
        if !ok {
          return;
        }
      }
      ok := true;
    }

    method Finish(id: Id)
      requires Valid() && |trail| > 0 && trail[|trail| - 1] == id && id !in trail[..|trail| - 1]
      requires forall y :: Edge(g, id, y) ==> y in visited
      modifies this
      ensures Valid() && visited == old(visited) + {id} && visiting == old(visiting) - {id}
      ensures trail == old(trail)[..|old(trail)| - 1]
    {
      visiting := visiting - {id};
      visited := visited + {id};
      ghost var rest := trail[..|trail| - 1];
      assert trail == rest + [id];
      trail := rest;
      assert order == (order + [id])[..|order|];
      order := order + [id];
    }
  }

  /** `_assert_acyclic`: passes exactly when there is no cycle and no dangling edge. */
  method AssertAcyclic(g: Graph) returns (ok: bool)
    ensures ok <==> !HasCycle(g) && !HasDangling(g)
  {
    var search := new DepthFirst(g);
    var rest := g.Keys;
    while rest != {}
      invariant search.Valid() && search.trail == [] && search.g == g
      invariant rest <= g.Keys && g.Keys - rest <= search.visited
    {
      var id :| id in rest;
      ok := search.Visit(id);
      if !ok {
        return;
      }
      rest := rest - {id};
    }
    assert search.visited == g.Keys;
    OrderedIsSound(g, search.order);
    ok := true;
  }
}
