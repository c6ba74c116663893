/**
 The depth-first orderings of the repository: `topological_order` over the steps of a
 blueprint and `dependency_order` over the required dependencies of a module.  Both share
 `visiting`, `visited` and the resulting list with a nested recursive `dfs`.
 */
module Ordering {
  import opened Graphs

  datatype Option<+T> = None | Some(value: T)

  /** Outcome of a visit: the two exceptions of `dfs` carry what their message reports. */
  datatype Visit = Done | Cycle(path: seq<Node>) | Unknown(ref: Node)

  datatype Order = Ordered(order: seq<Node>) | Cyclic(path: seq<Node>) | Missing(ref: Node)

  /** The path reported with a cycle: a walk whose last node occurs earlier in it. */
  ghost predicate CyclePath(g: Graph, path: seq<Node>) {
    Walk(g, path) && path[|path| - 1] in path[..|path| - 1]
  }

  lemma CyclePathMeansCycle(g: Graph, path: seq<Node>)
    requires CyclePath(g, path)
    ensures Reaches(g, path[|path| - 1], path[|path| - 1]) && !Acyclic(g)
  {
    var k :| 0 <= k < |path| - 1 && path[k] == path[|path| - 1];
    WalkBackIsCycle(g, path, k);
  }

  function Without(s: seq<Node>, omitted: Option<Node>): (r: seq<Node>)
    ensures omitted.None? ==> r == s
  {
    if s == [] then []
    else
      var last := s[|s| - 1];
      Without(s[..|s| - 1], omitted) + (if omitted == Some(last) then [] else [last])
  }

  /** The nodes under way form a walk; the finished ones stand in topological order. */
  ghost predicate Consistent(g: Graph, visiting: seq<Node>, visited: set<Node>, finished: seq<Node>) {
    && (visiting != [] ==> Walk(g, visiting))
    && NoDuplicates(visiting)
    && (forall a :: a in visiting ==> a in g && a !in visited)
    && (forall a :: a in visited <==> a in finished)
    && (forall a :: a in finished ==> a in g)
    && NoDuplicates(finished)
    && Topological(g, finished)
  }

  lemma EnterKeeps(g: Graph, visiting: seq<Node>, visited: set<Node>, finished: seq<Node>, node: Node)
    requires Consistent(g, visiting, visited, finished)
    requires visiting != [] ==> Edge(g, visiting[|visiting| - 1], node)
    requires node in g && node !in visited && node !in visiting
    ensures Consistent(g, visiting + [node], visited, finished)
    ensures g.Keys - (set a | a in visiting + [node]) < g.Keys - (set a | a in visiting)
  {
    var more := visiting + [node];
    forall i | 0 <= i < |more| - 1
      ensures Edge(g, more[i], more[i + 1])
    {
    }
    assert node in more && node in g.Keys - (set a | a in visiting);
  }

  lemma LeaveKeeps(g: Graph, visiting: seq<Node>, visited: set<Node>, finished: seq<Node>, node: Node)
    requires Consistent(g, visiting + [node], visited, finished)
    requires forall b :: Edge(g, node, b) ==> b in visited
    ensures Consistent(g, visiting, visited + {node}, finished + [node])
  {
    var more := visiting + [node];
    assert more[|visiting|] == node && node in more;
    forall i | 0 <= i < |visiting| - 1
      ensures Edge(g, visiting[i], visiting[i + 1])
    {
      assert Edge(g, more[i], more[i + 1]);
    }
    forall a | a in visiting
      ensures a in g && a !in visited && a != node
    {
      assert a in more;
      var k :| 0 <= k < |visiting| && visiting[k] == a;
      assert more[k] == a;
    }
    forall i, j | 0 <= i < j < |visiting|
      ensures visiting[i] != visiting[j]
    {
      assert more[i] == visiting[i] && more[j] == visiting[j];
    }
    forall i, b | 0 <= i < |finished + [node]| && Edge(g, (finished + [node])[i], b)
      ensures b in (finished + [node])[..i]
    {
      assert (finished + [node])[..i] == finished[..i];
    }
  }

  lemma BackEdge(g: Graph, visiting: seq<Node>, visited: set<Node>, finished: seq<Node>, node: Node)
    requires Consistent(g, visiting, visited, finished)
    requires node in visiting && Edge(g, visiting[|visiting| - 1], node)
    ensures CyclePath(g, visiting + [node])
  {
    var path := visiting + [node];
    assert path[..|path| - 1] == visiting;
  }

  lemma ShorterPrefix(front: seq<Node>, last: Node, path: seq<Node>)
    requires front + [last] <= path
    ensures front <= path
  {
    assert (front + [last])[..|front|] == front;
  }

  class Sorter {
    const graph: Graph
    const omitted: Option<Node>
    var visiting: seq<Node>
    var visited: set<Node>
    var order: seq<Node>
    /** All finished nodes, first finished first; `order` leaves the omitted one out. */
    ghost var finished: seq<Node>

    ghost predicate Valid()
      reads this
    {
      Consistent(graph, visiting, visited, finished) && order == Without(finished, omitted)
    }

    ghost function Unvisited(): set<Node>
      reads this
    {
      graph.Keys - (set a | a in visiting)
    }

    constructor (graph: Graph, omitted: Option<Node>)
      ensures Valid() && visiting == [] && finished == []
      ensures this.graph == graph && this.omitted == omitted
    {
      this.graph := graph;
      this.omitted := omitted;
      visiting := [];
      visited := {};
      order := [];
      finished := [];
    }

    /** `visiting.pop()`, then the node is recorded as visited and listed. */
    method Leave(node: Node, ghost below: seq<Node>)
      requires Valid() && visiting == below + [node]
      requires forall b :: Edge(graph, node, b) ==> b in visited
      modifies this
      ensures Valid() && visiting == below
      ensures visited == old(visited) + {node} && finished == old(finished) + [node]
    {
      hide Consistent, Without, Edge;
      LeaveKeeps(graph, below, visited, finished, node);
      WithoutNext(finished, node, omitted);
      visiting := visiting[..|visiting| - 1];
      visited := visited + {node};
      finished := finished + [node];
      if omitted != Some(node) {
        order := order + [node];
      }
    }

    /**
     A visit ends with the node and everything below it finished, or reports a real cycle
     or a reference that has no successor list.
     */
    method Dfs(node: Node) returns (r: Visit)
      requires Valid()
      requires visiting != [] ==> Edge(graph, visiting[|visiting| - 1], node)
      modifies this
      ensures Valid()
      ensures r.Done? ==> visiting == old(visiting) && node in visited
      ensures r.Done? ==> old(visited) <= visited && old(finished) <= finished
      ensures r.Done? ==> forall a :: a in finished ==> a in old(finished) || a == node || Reaches(graph, node, a)
      ensures r.Cycle? ==> CyclePath(graph, r.path) && old(visiting) + [node] <= r.path
      ensures r.Unknown? ==> r.ref !in graph && (r.ref == node || Reaches(graph, node, r.ref))
      ensures node in old(visited) ==> r.Done? && finished == old(finished)
      ensures node in graph && node !in old(visited) && node !in old(visiting) && (forall b :: Edge(graph, node, b) ==> b in old(visited))
              ==> r.Done? && finished == old(finished) + [node]
      decreases Unvisited()
    {
      hide Consistent, Reaches, CyclePath, Without;
      if node in visited {
        return Done;
      }
      if node in visiting {
        BackEdge(graph, visiting, visited, finished, node);
        return Cycle(visiting + [node]);
      }
      if node !in graph {
        return Unknown(node);
      }
      ghost var before := finished;
      ghost var ready := forall b :: Edge(graph, node, b) ==> b in visited;
      EnterKeeps(graph, visiting, visited, finished, node);
      visiting := visiting + [node];
      var deps := graph[node];
      var i := 0;
      while i < |deps|
        invariant 0 <= i <= |deps|
        invariant Valid() && visiting == old(visiting) + [node]
        invariant before <= finished && old(visited) <= visited
        invariant forall k :: 0 <= k < i ==> deps[k] in visited
        invariant forall a :: a in finished ==> a in before || Reaches(graph, node, a)
        invariant ready ==> finished == before
      {
        assert Edge(graph, node, deps[i]);
        ReachesByEdge(graph, node, deps[i]);
        ghost var seen := finished;
        r := Dfs(deps[i]);
        if !r.Done? {
          if r.Unknown? {
            if r.ref != deps[i] {
              ReachesTransitive(graph, node, deps[i], r.ref);
            }
          } else {
            ShorterPrefix(old(visiting) + [node], deps[i], r.path);
          }
          return;
        }
        forall a | a in finished
          ensures a in before || Reaches(graph, node, a)
        {
          if a !in seen && a != deps[i] {
            ReachesTransitive(graph, node, deps[i], a);
          }
        }
        i := i + 1;
      }
      Leave(node, old(visiting));
      r := Done;
    }
  }

  /** The listing order of the steps, their graph, and what the loader has checked of them. */
  ghost predicate Listing(g: Graph, ids: seq<Node>) {
    NoDuplicates(ids) && (forall a :: a in ids <==> a in g) && Closed(g)
  }

  ghost predicate SameElements(s: seq<Node>, t: seq<Node>) {
    forall a :: a in s <==> a in t
  }

  /** What an accepted order promises, stated without the algorithm. */
  ghost predicate ExecutionOrder(g: Graph, ids: seq<Node>, order: seq<Node>) {
    && NoDuplicates(order) && SameElements(order, ids)
    && forall i, b :: 0 <= i < |order| && Reaches(g, order[i], b) ==> b in order[..i]
  }

  method TopologicalOrder(g: Graph, ids: seq<Node>) returns (r: Order)
    requires Listing(g, ids)
    ensures r.Ordered? <==> Acyclic(g)
    ensures r.Ordered? ==> ExecutionOrder(g, ids, r.order) && |r.order| == |ids|
    ensures Topological(g, ids) ==> r == Ordered(ids)
    ensures !r.Ordered? ==> r.Cyclic? && CyclePath(g, r.path)
  {
    hide Reaches, CyclePath, Acyclic, ExecutionOrder, Listing, Topological, Consistent;
    var sorter := new Sorter(g, None);
    ghost var sorted := Topological(g, ids);
    if sorted {
      ListedIsAcyclic(g, ids);
    }
    var i := 0;
    while i < |ids|
      invariant 0 <= i <= |ids|
      invariant sorter.Valid() && sorter.visiting == [] && fresh(sorter) && sorter.graph == g && sorter.omitted == None
      invariant forall k :: 0 <= k < i ==> ids[k] in sorter.visited
      invariant sorted ==> sorter.finished == ids[..i]
    {
      if sorted {
        NextIsReady(g, ids, i, sorter.visited, sorter.finished);
      }
      var visit := sorter.Dfs(ids[i]);
      if visit.Cycle? {
        CyclePathMeansCycle(g, visit.path);
        return Cyclic(visit.path);
      }
      if visit.Unknown? {
        UnknownIsOutside(g, ids, i, visit.ref);
        assert false;
      }
      PrefixGrows(ids, i);
      i := i + 1;
    }
    r := Ordered(sorter.order);
    CompleteOrder(g, ids, sorter.visited, sorter.finished);
    assert sorted ==> ids[..|ids|] == ids;
  }

  lemma ListedIsAcyclic(g: Graph, ids: seq<Node>)
    requires Listing(g, ids) && Topological(g, ids)
    ensures Acyclic(g)
  {
    TopologicalImpliesAcyclic(g, ids);
  }

  lemma PrefixGrows(s: seq<Node>, i: nat)
    requires i < |s|
    ensures s[..i + 1] == s[..i] + [s[i]]
  {
  }

  /** In a listing that is already topological the next step's requirements are all behind it. */
  lemma NextIsReady(g: Graph, ids: seq<Node>, i: nat, visited: set<Node>, finished: seq<Node>)
    requires Listing(g, ids) && i < |ids| && Consistent(g, [], visited, finished)
    requires Topological(g, ids) && finished == ids[..i]
    ensures ids[i] in g && ids[i] !in visited && forall b :: Edge(g, ids[i], b) ==> b in visited
  {
    assert ids[i] in ids;
  }

  lemma CompleteOrder(g: Graph, ids: seq<Node>, visited: set<Node>, finished: seq<Node>)
    requires Listing(g, ids) && Consistent(g, [], visited, finished)
    requires forall k :: 0 <= k < |ids| ==> ids[k] in visited
    ensures Acyclic(g) && ExecutionOrder(g, ids, finished) && |finished| == |ids|
  {
    assert SameElements(finished, ids);
    TopologicalImpliesAcyclic(g, finished);
    TopologicalIsExecutionOrder(g, ids, finished);
    SameLength(finished, ids);
  }

  /** A closed graph leads to no unknown reference: `by_id[step_id]` cannot fail. */
  lemma UnknownIsOutside(g: Graph, ids: seq<Node>, i: nat, ref: Node)
    requires Listing(g, ids) && i < |ids| && ref !in g
    ensures ref != ids[i] && !Reaches(g, ids[i], ref)
  {
    assert ids[i] in ids;
    if Reaches(g, ids[i], ref) {
      var p :| WalkFromTo(g, p, ids[i], ref);
      WalkEndsInside(g, p);
    }
  }

  lemma WalkEndsInside(g: Graph, p: seq<Node>)
    requires Closed(g) && Walk(g, p) && |p| >= 2
    ensures p[|p| - 1] in g
  {
    var i := |p| - 2;
    assert Edge(g, p[i], p[i + 1]);
  }

  lemma TopologicalIsExecutionOrder(g: Graph, ids: seq<Node>, order: seq<Node>)
    requires Topological(g, order) && NoDuplicates(order) && SameElements(order, ids)
    ensures ExecutionOrder(g, ids, order)
  {
    forall i, b | 0 <= i < |order| && Reaches(g, order[i], b)
      ensures b in order[..i]
    {
      var p :| WalkFromTo(g, p, order[i], b);
      TopologicalIsTransitive(g, order, p, i);
    }
  }

  lemma {:induction false} CardinalityOfDistinct(s: seq<Node>)
    requires NoDuplicates(s)
    ensures |set a | a in s| == |s|
  {
    if s != [] {
      var front, last := s[..|s| - 1], s[|s| - 1];
      CardinalityOfDistinct(front);
      assert s == front + [last];
      assert (set a | a in s) == (set a | a in front) + {last};
    } else {
      assert (set a | a in s) == {};
    }
  }

  lemma SameLength(s: seq<Node>, t: seq<Node>)
    requires NoDuplicates(s) && NoDuplicates(t) && SameElements(s, t)
    ensures |s| == |t|
  {
    CardinalityOfDistinct(s);
    CardinalityOfDistinct(t);
    assert (set a | a in s) == (set a | a in t);
  }

  /** The order in which the steps are torn down: the execution order read backwards. */
  function Reversed<T>(s: seq<T>): (r: seq<T>)
    ensures |r| == |s|
    ensures forall i :: 0 <= i < |s| ==> r[i] == s[|s| - 1 - i]
  {
    seq(|s|, i requires 0 <= i < |s| => s[|s| - 1 - i])
  }

  /** Whatever a step needs, directly or not, is torn down after the step itself. */
  lemma NeededIsDestroyedLater(g: Graph, ids: seq<Node>, order: seq<Node>, i: nat, b: Node)
    requires ExecutionOrder(g, ids, order) && i < |order|
    requires Reaches(g, Reversed(order)[i], b)
    ensures exists j :: i < j < |order| && Reversed(order)[j] == b
  {
    var n := |order| - 1 - i;
    var k :| 0 <= k < n && order[k] == b;
    assert Reversed(order)[|order| - 1 - k] == b;
  }

  /**
   `dependency_order`: exactly the modules reachable by required edges, the root excepted,
   once each and after their own requirements.
   */
  method DependencyOrder(g: Graph, root: Node) returns (r: Order)
    ensures r.Ordered? ==> NoDuplicates(r.order) && (forall a :: a in r.order <==> Reaches(g, root, a))
    ensures r.Ordered? ==> forall i, b :: 0 <= i < |r.order| && Reaches(g, r.order[i], b) ==> b in r.order[..i]
    ensures r.Ordered? ==> root in g && (forall a :: Reaches(g, root, a) ==> a in g && a != root)
    ensures r.Cyclic? ==> CyclePath(g, r.path) && [root] <= r.path
    ensures r.Missing? ==> r.ref !in g && (r.ref == root || Reaches(g, root, r.ref))
  {
    hide Consistent, CyclePath, Reaches, NoDuplicates, Without;
    var sorter := new Sorter(g, Some(root));
    var visit := sorter.Dfs(root);
    match visit {
      case Cycle(path) =>
        return Cyclic(path);
      case Unknown(ref) =>
        return Missing(ref);
      case Done =>
    }
    r := Ordered(sorter.order);
    DependenciesListed(g, root, sorter.visited, sorter.finished);
  }

  /** What a finished visit from the root lists, the root left out. */
  lemma DependenciesListed(g: Graph, root: Node, visited: set<Node>, finished: seq<Node>)
    requires Consistent(g, [], visited, finished) && root in visited
    requires forall a :: a in finished ==> a == root || Reaches(g, root, a)
    ensures var order := Without(finished, Some(root));
            && NoDuplicates(order) && (forall a :: a in order <==> Reaches(g, root, a))
            && (forall i, b :: 0 <= i < |order| && Reaches(g, order[i], b) ==> b in order[..i])
            && root in g && (forall a :: Reaches(g, root, a) ==> a in g && a != root)
  {
    hide Reaches, Without, Topological;
    FinishedIsListed(g, visited, finished);
    RootIsLast(g, root, finished);
    WithoutLast(finished);
    TopologicalIsExecutionOrder(g, finished, finished);
    var order := finished[..|finished| - 1];
    forall i | 0 <= i < |order|
      ensures order[..i] == finished[..i]
    {
    }
  }

  lemma FinishedIsListed(g: Graph, visited: set<Node>, finished: seq<Node>)
    requires Consistent(g, [], visited, finished)
    ensures Topological(g, finished) && NoDuplicates(finished)
    ensures forall a :: a in visited <==> a in finished
    ensures forall a :: a in finished ==> a in g
  {
  }

  /** A finished visit from the root holds the root and what it reaches; the root comes last. */
  lemma RootIsLast(g: Graph, root: Node, finished: seq<Node>)
    requires Topological(g, finished) && NoDuplicates(finished) && root in finished
    requires forall a :: a in finished ==> a in g && (a == root || Reaches(g, root, a))
    ensures finished[|finished| - 1] == root
    ensures forall a :: a in finished[..|finished| - 1] <==> Reaches(g, root, a)
  {
    var j :| 0 <= j < |finished| && finished[j] == root;
    TopologicalIsExecutionOrder(g, finished, finished);
    var last := finished[|finished| - 1];
    assert last in finished;
    if last != root {
      assert false;
    }
    assert j == |finished| - 1;
    forall a
      ensures a in finished[..j] <==> Reaches(g, root, a)
    {
      if Reaches(g, root, a) {
        assert Reaches(g, finished[j], a);
      }
      if a in finished[..j] {
        assert a in finished && a != root;
      }
    }
  }

  lemma WithoutNext(s: seq<Node>, node: Node, omitted: Option<Node>)
    ensures Without(s + [node], omitted) == if omitted == Some(node) then Without(s, omitted) else Without(s, omitted) + [node]
  {
    assert (s + [node])[..|s|] == s;
  }

  lemma WithoutLast(s: seq<Node>)
    requires s != [] && NoDuplicates(s)
    ensures Without(s, Some(s[|s| - 1])) == s[..|s| - 1]
  {
    WithoutAbsent(s[..|s| - 1], s[|s| - 1]);
  }

  lemma {:induction false} WithoutAbsent(s: seq<Node>, x: Node)
    requires x !in s
    ensures Without(s, Some(x)) == s
  {
    if s != [] {
      WithoutAbsent(s[..|s| - 1], x);
      assert s == s[..|s| - 1] + [s[|s| - 1]];
      assert s[|s| - 1] in s;
    }
  }
}
