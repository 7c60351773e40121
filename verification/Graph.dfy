/** The depends_on graph: paths, reachability, acyclicity, and the depth-first cycle check. */
module Graph {
  import opened Common

  /** Ticket id to the ids it depends on. */
  type Edges = map<Id, seq<Id>>

  ghost predicate IsEdge(g: Edges, a: Id, b: Id) {
    a in g && b in g[a]
  }

  ghost predicate IsPath(g: Edges, p: seq<Id>) {
    |p| > 0 && forall i :: 0 <= i < |p| - 1 ==> IsEdge(g, p[i], p[i + 1])
  }

  ghost predicate PathFromTo(g: Edges, p: seq<Id>, a: Id, b: Id) {
    IsPath(g, p) && p[0] == a && p[|p| - 1] == b
  }

  ghost predicate Reaches(g: Edges, a: Id, b: Id) {
    exists p :: PathFromTo(g, p, a, b)
  }

  ghost predicate ReachesFromAny(g: Edges, roots: seq<Id>, b: Id) {
    exists r :: r in roots && Reaches(g, r, b)
  }

  /** No path of at least one edge returns to its start. */
  ghost predicate Acyclic(g: Edges) {
    forall p :: IsPath(g, p) && |p| >= 2 ==> p[0] != p[|p| - 1]
  }

  /** A set nothing leads out of. */
  ghost predicate Closed(g: Edges, s: set<Id>) {
    forall v, w :: v in s && IsEdge(g, v, w) ==> w in s
  }

  lemma {:induction false} ClosedHoldsPath(g: Edges, s: set<Id>, p: seq<Id>, i: nat)
    requires Closed(g, s) && IsPath(g, p) && p[0] in s && i < |p|
    ensures p[i] in s
  {
    if i > 0 {
      ClosedHoldsPath(g, s, p, i - 1);
      assert IsEdge(g, p[i - 1], p[i]);
    }
  }

  lemma ReachesSelf(g: Edges, a: Id)
    ensures Reaches(g, a, a)
  {
    assert PathFromTo(g, [a], a, a);
  }

  lemma ReachesStep(g: Edges, a: Id, b: Id, c: Id)
    requires IsEdge(g, a, b) && Reaches(g, b, c)
    ensures Reaches(g, a, c)
  {
    var p :| PathFromTo(g, p, b, c);
    assert PathFromTo(g, [a] + p, a, c);
  }

  lemma ReachesExtend(g: Edges, a: Id, b: Id, c: Id)
    requires Reaches(g, a, b) && IsEdge(g, b, c)
    ensures Reaches(g, a, c)
  {
    var p :| PathFromTo(g, p, a, b);
    assert PathFromTo(g, p + [c], a, c);
  }

  // ----- The depth-first search of dependencyUpdateCreatesCycle -----

  /** Every node already left by the search (visited but not still on the call stack)
      has all its dependencies visited. */
  ghost predicate Explored(g: Edges, visited: set<Id>, stack: set<Id>) {
    forall v, w :: v in visited && v !in stack && IsEdge(g, v, w) ==> w in visited
  }

  /** The recursive closure reachesTarget. The visited set is shared by every call and every root. */
  method ReachesTarget(g: Edges, target: Id, id: Id, visited: set<Id>, ghost stack: set<Id>)
    returns (found: bool, visited': set<Id>)
    requires target !in visited && Explored(g, visited, stack)
    ensures found ==> Reaches(g, id, target)
    ensures !found ==> target !in visited' && visited + {id} <= visited' && Explored(g, visited', stack)
    decreases g.Keys - visited
  {
    if id == target {
      ReachesSelf(g, id);
      return true, visited;
    }
    if id in visited {
      return false, visited;
    }
    visited' := visited + {id};
    if id !in g {
      return false, visited';
    }
    var deps := g[id];
    for i := 0 to |deps|
      invariant target !in visited' && visited + {id} <= visited'
      invariant Explored(g, visited', stack + {id})
      invariant forall k :: 0 <= k < i ==> deps[k] in visited'
    {
      assert g.Keys - visited' < g.Keys - visited by { assert id in g.Keys - visited; }
      found, visited' := ReachesTarget(g, target, deps[i], visited', stack + {id});
      if found {
        ReachesStep(g, id, deps[i], target);
        return;
      }
    }
    found := false;
  }

  /** dependencyUpdateCreatesCycle is exact: it answers true iff some new dependency reaches the
      ticket, even though nodes visited from one root are skipped for every later root. */
  method DependencyUpdateCreatesCycle(g: Edges, target: Id, newDependsOn: seq<Id>) returns (cycle: bool)
    ensures cycle <==> ReachesFromAny(g, newDependsOn, target)
  {
    var visited: set<Id> := {};
    for i := 0 to |newDependsOn|
      invariant target !in visited && Explored(g, visited, {})
      invariant forall k :: 0 <= k < i ==> newDependsOn[k] in visited
    {
      cycle, visited := ReachesTarget(g, target, newDependsOn[i], visited, {});
      if cycle {
        return;
      }
    }
    forall r | r in newDependsOn ensures !Reaches(g, r, target) {
      forall p | PathFromTo(g, p, r, target) ensures false {
        ClosedHoldsPath(g, visited, p, |p| - 1);
      }
    }
    cycle := false;
  }

  // ----- What changing edges does to acyclicity -----

  lemma FewerEdgesStayAcyclic(g: Edges, g': Edges)
    requires Acyclic(g) && forall a, b :: IsEdge(g', a, b) ==> IsEdge(g, a, b)
    ensures Acyclic(g')
  {
    forall p | IsPath(g', p) && |p| >= 2 ensures p[0] != p[|p| - 1] {
      assert IsPath(g, p);
    }
  }

  /** A path of the updated graph never leaves the region the new dependencies reach,
      provided that region misses the updated node. */
  lemma {:induction false} UpdatedPathStays(g: Edges, t: Id, deps: seq<Id>, p: seq<Id>, i: nat, j: nat)
    requires !ReachesFromAny(g, deps, t)
    requires IsPath(g[t := deps], p) && i <= j < |p|
    ensures ReachesFromAny(g, deps, p[i]) ==> ReachesFromAny(g, deps, p[j])
    decreases j
  {
    if i < j && ReachesFromAny(g, deps, p[i]) {
      UpdatedPathStays(g, t, deps, p, i, j - 1);
      assert IsEdge(g[t := deps], p[j - 1], p[j]);
      assert p[j - 1] != t;
      var r :| r in deps && Reaches(g, r, p[j - 1]);
      ReachesExtend(g, r, p[j - 1], p[j]);
    }
  }

  lemma {:induction false} FirstOccurrence(p: seq<Id>, t: Id) returns (i: nat)
    requires t in p
    ensures i < |p| && p[i] == t && t !in p[..i]
  {
    if p[0] == t {
      i := 0;
    } else {
      var k := FirstOccurrence(p[1..], t);
      i := k + 1;
      assert p[..i] == [p[0]] + p[1..][..k];
    }
  }

  /** Replacing one node's dependencies keeps an acyclic graph acyclic exactly when
      no new dependency already reaches that node. */
  lemma UpdateAcyclicIff(g: Edges, t: Id, deps: seq<Id>)
    requires Acyclic(g)
    ensures Acyclic(g[t := deps]) <==> !ReachesFromAny(g, deps, t)
  {
    var g' := g[t := deps];
    if ReachesFromAny(g, deps, t) {
      var d :| d in deps && Reaches(g, d, t);
      var p :| PathFromTo(g, p, d, t);
      var i := FirstOccurrence(p, t);
      var cycle := [t] + p[..i + 1];
      assert IsPath(g', cycle) by {
        forall k | 0 <= k < |cycle| - 1 ensures IsEdge(g', cycle[k], cycle[k + 1]) {
          if k > 0 {
            assert cycle[k] == p[..i][k - 1];
            assert IsEdge(g, p[k - 1], p[k]);
          }
        }
      }
      assert cycle[0] == cycle[|cycle| - 1];
    } else {
      forall p | IsPath(g', p) && |p| >= 2 ensures p[0] != p[|p| - 1] {
        UpdatedCycleFree(g, t, deps, p);
      }
    }
  }

  lemma UpdatedCycleFree(g: Edges, t: Id, deps: seq<Id>, p: seq<Id>)
    requires Acyclic(g) && !ReachesFromAny(g, deps, t)
    requires IsPath(g[t := deps], p) && |p| >= 2
    ensures p[0] != p[|p| - 1]
  {
    var g' := g[t := deps];
    if i :| 0 <= i < |p| - 1 && p[i] == t {
      // The edge out of t enters the region the new dependencies reach, so the path ends in it;
      // t is outside it, so the path starts outside it.
      assert IsEdge(g', p[i], p[i + 1]);
      ReachesSelf(g, p[i + 1]);
      UpdatedPathStays(g, t, deps, p, i + 1, |p| - 1);
      UpdatedPathStays(g, t, deps, p, 0, i);
    } else {
      forall k | 0 <= k < |p| - 1 ensures IsEdge(g, p[k], p[k + 1]) {
        assert IsEdge(g', p[k], p[k + 1]);
      }
      assert IsPath(g, p);
    }
  }

  /** Reaching another node means some edge ends there. */
  lemma ReachedHasEdgeIn(g: Edges, a: Id, t: Id)
    requires a != t && Reaches(g, a, t)
    ensures exists x :: IsEdge(g, x, t)
  {
    var p :| PathFromTo(g, p, a, t);
    assert IsEdge(g, p[|p| - 2], p[|p| - 1]);
  }

  // ----- Minimal elements: why an acyclic board never deadlocks -----

  ghost predicate Distinct(p: seq<Id>) {
    forall i, j :: 0 <= i < j < |p| ==> p[i] != p[j]
  }

  lemma {:induction false} DistinctFits(p: seq<Id>, s: set<Id>)
    requires Distinct(p) && forall x :: x in p ==> x in s
    ensures |p| <= |s|
  {
    if p != [] {
      var rest := p[..|p| - 1];
      assert forall x :: x in rest ==> x in s - {p[|p| - 1]};
      DistinctFits(rest, s - {p[|p| - 1]});
    }
  }

  /** Every non-empty set of nodes of an acyclic graph has a member with no dependency in the set. */
  lemma SinkExists(g: Edges, s: set<Id>) returns (v: Id)
    requires Acyclic(g) && s != {}
    ensures v in s && forall w :: w in s ==> !IsEdge(g, v, w)
  {
    var a :| a in s;
    v := SinkBeyond(g, s, [a]);
  }

  lemma {:induction false} SinkBeyond(g: Edges, s: set<Id>, p: seq<Id>) returns (v: Id)
    requires Acyclic(g) && IsPath(g, p) && Distinct(p) && forall x :: x in p ==> x in s
    ensures v in s && forall w :: w in s ==> !IsEdge(g, v, w)
    decreases |s| - |p|
  {
    DistinctFits(p, s);
    var last := p[|p| - 1];
    if w :| w in s && IsEdge(g, last, w) {
      var q := p + [w];
      assert IsPath(g, q);
      forall i | 0 <= i < |p| ensures p[i] != w {
        assert IsPath(g, q[i..]);
      }
      DistinctFits(q, s);
      v := SinkBeyond(g, s, q);
    } else {
      v := last;
    }
  }
}
