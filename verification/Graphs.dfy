/**
 Directed graphs given by successor lists, as the blueprint and module loaders build them
 from `requires` and `dependencies`.  A successor need not be a node of the graph: the
 loaders walk such graphs before they have checked that every reference is known.
 */
module Graphs {

  type Node = string
  type Graph = map<Node, seq<Node>>

  /** A walk follows edges; only its last node may be unknown to the graph. */
  ghost predicate Walk(g: Graph, p: seq<Node>) {
    && p != []
    && forall i :: 0 <= i < |p| - 1 ==> Edge(g, p[i], p[i + 1])
  }

  predicate Edge(g: Graph, a: Node, b: Node) {
    a in g && b in g[a]
  }

  /** b is reached from a by at least one edge. */
  ghost predicate Reaches(g: Graph, a: Node, b: Node) {
    exists p :: WalkFromTo(g, p, a, b)
  }

  ghost predicate WalkFromTo(g: Graph, p: seq<Node>, a: Node, b: Node) {
    Walk(g, p) && |p| >= 2 && p[0] == a && p[|p| - 1] == b
  }

  ghost predicate Acyclic(g: Graph) {
    forall a :: !Reaches(g, a, a)
  }

  ghost predicate Closed(g: Graph) {
    forall a, b :: Edge(g, a, b) ==> b in g
  }

  ghost predicate NoDuplicates<T>(s: seq<T>) {
    forall i, j :: 0 <= i < j < |s| ==> s[i] != s[j]
  }

  /** Every node of s stands after all its direct successors. */
  ghost predicate Topological(g: Graph, s: seq<Node>) {
    forall i, b :: 0 <= i < |s| && Edge(g, s[i], b) ==> b in s[..i]
  }

  lemma ReachesByEdge(g: Graph, a: Node, b: Node)
    requires Edge(g, a, b)
    ensures Reaches(g, a, b)
  {
    assert WalkFromTo(g, [a, b], a, b);
  }

  lemma ReachesTransitive(g: Graph, a: Node, b: Node, c: Node)
    requires Reaches(g, a, b) && Reaches(g, b, c)
    ensures Reaches(g, a, c)
  {
    var p :| WalkFromTo(g, p, a, b);
    var q :| WalkFromTo(g, q, b, c);
    var w := p + q[1..];
    forall i | 0 <= i < |w| - 1
      ensures Edge(g, w[i], w[i + 1])
    {
      if i < |p| - 1 {
      } else {
        assert w[i] == q[i - |p| + 1] && w[i + 1] == q[i - |p| + 2];
      }
    }
    assert WalkFromTo(g, w, a, c);
  }

  /** Any set that holds a's successors and is closed under edges holds all that a reaches. */
  lemma {:induction false} ReachesStaysInside(g: Graph, p: seq<Node>, inside: iset<Node>)
    requires Walk(g, p) && |p| >= 2
    requires forall b :: Edge(g, p[0], b) ==> b in inside
    requires forall a, b :: a in inside && Edge(g, a, b) ==> b in inside
    ensures p[|p| - 1] in inside
  {
    assert Edge(g, p[0], p[1]);
    if |p| > 2 {
      ReachesStaysInside(g, p[1..], inside);
    }
  }

  /** In a topological sequence everything a node reaches stands strictly before it. */
  lemma {:induction false} TopologicalIsTransitive(g: Graph, s: seq<Node>, p: seq<Node>, j: nat)
    requires Topological(g, s)
    requires Walk(g, p) && |p| >= 2 && j < |s| && s[j] == p[0]
    ensures p[|p| - 1] in s[..j]
  {
    assert Edge(g, s[j], p[1]);
    var k :| 0 <= k < j && s[k] == p[1];
    if |p| > 2 {
      TopologicalIsTransitive(g, s, p[1..], k);
    }
  }

  /** A graph whose nodes can all be listed topologically, without repeats, has no cycle. */
  lemma TopologicalImpliesAcyclic(g: Graph, s: seq<Node>)
    requires Topological(g, s) && NoDuplicates(s)
    requires forall a :: a in g ==> a in s
    ensures Acyclic(g)
  {
    forall a | Reaches(g, a, a)
      ensures false
    {
      var p :| WalkFromTo(g, p, a, a);
      assert Edge(g, p[0], p[1]);
      var j :| 0 <= j < |s| && s[j] == a;
      TopologicalIsTransitive(g, s, p, j);
      assert false;
    }
  }

  /** A walk that comes back to an earlier node of itself contains a cycle. */
  lemma WalkBackIsCycle(g: Graph, p: seq<Node>, k: nat)
    requires Walk(g, p) && k < |p| - 1 && p[k] == p[|p| - 1]
    ensures Reaches(g, p[k], p[k]) && !Acyclic(g)
  {
    assert WalkFromTo(g, p[k..], p[k], p[k]);
  }
}
