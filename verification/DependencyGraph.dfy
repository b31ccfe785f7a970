/** The dependency graph of a workflow: nodes, dependency lists and the downstream
    lists derived from them, with paths, ancestors and acyclicity. */
module DependencyGraph {
  import opened Counting

  type NodeId = string

  /** `nodes` keeps the order of the configuration file.  A dependency may be listed
      more than once, so `deps` and `down` are sequences and `down[u]` holds `v` as often
      as `deps[v]` holds `u`. */
  datatype Graph = Graph(nodes: seq<NodeId>,
                         deps: map<NodeId, seq<NodeId>>,
                         down: map<NodeId, seq<NodeId>>)

  ghost predicate Distinct<T>(s: seq<T>) {
    forall i, j :: 0 <= i < j < |s| ==> s[i] != s[j]
  }

  /** The downstream entries that name `v`, each identified by its list and position. */
  ghost function Entries(down: map<NodeId, seq<NodeId>>, v: NodeId): set<(NodeId, int)> {
    set u, i | u in down && 0 <= i < |down[u]| && down[u][i] == v :: (u, i)
  }

  /** What loading establishes about a graph, acyclicity apart. */
  ghost predicate WellFormed(g: Graph) {
    && Distinct(g.nodes)
    && (forall n :: n in g.deps <==> n in g.nodes)
    && (forall n :: n in g.down <==> n in g.nodes)
    && (forall v, u :: v in g.deps && u in g.deps[v] ==> u in g.down && v in g.down[u])
    && (forall u, v :: u in g.down && v in g.down[u] ==> v in g.deps && u in g.deps[v])
    && (forall v {:trigger Entries(g.down, v)} :: v in g.deps ==> |Entries(g.down, v)| == |g.deps[v]|)
  }

  /** `v` lists `u` among its dependencies. */
  ghost predicate Edge(g: Graph, u: NodeId, v: NodeId) {
    v in g.deps && u in g.deps[v]
  }

  /** A path follows edges from a node to one that depends on it. */
  ghost predicate IsPath(g: Graph, p: seq<NodeId>) {
    forall i, j :: 0 <= i && j == i + 1 && j < |p| ==> Edge(g, p[i], p[j])
  }

  ghost predicate PathFromTo(g: Graph, p: seq<NodeId>, a: NodeId, v: NodeId) {
    |p| >= 2 && IsPath(g, p) && p[0] == a && p[|p| - 1] == v
  }

  /** `a` is a proper ancestor of `v`: there is a path of at least one edge. */
  ghost predicate Ancestor(g: Graph, a: NodeId, v: NodeId) {
    exists p :: PathFromTo(g, p, a, v)
  }

  ghost predicate Acyclic(g: Graph) {
    forall v {:trigger Ancestor(g, v, v)} :: v in g.deps ==> !Ancestor(g, v, v)
  }

  ghost predicate DependsInside(g: Graph, s: set<NodeId>, v: NodeId) {
    exists u :: u in s && Edge(g, u, v)
  }

  /** Every member of `s` has a dependency in `s`. */
  ghost predicate SelfDependent(g: Graph, s: set<NodeId>) {
    forall v {:trigger DependsInside(g, s, v)} :: v in s ==> DependsInside(g, s, v)
  }

  lemma PathPrepend(g: Graph, u: NodeId, p: seq<NodeId>)
    requires IsPath(g, p) && |p| > 0 && Edge(g, u, p[0])
    ensures IsPath(g, [u] + p)
  {
    var q := [u] + p;
    forall i, j | 0 <= i && j == i + 1 && j < |q| ensures Edge(g, q[i], q[j]) {
      if i > 0 {
        assert q[i] == p[i - 1] && q[j] == p[i];
      }
    }
  }

  lemma PathSlice(g: Graph, p: seq<NodeId>, lo: nat, hi: nat)
    requires IsPath(g, p) && lo <= hi <= |p|
    ensures IsPath(g, p[lo..hi])
  {
    var q := p[lo..hi];
    forall i, j | 0 <= i && j == i + 1 && j < |q| ensures Edge(g, q[i], q[j]) {
      assert q[i] == p[lo + i] && q[j] == p[lo + i + 1];
    }
  }

  lemma EdgeIsAncestor(g: Graph, u: NodeId, v: NodeId)
    requires Edge(g, u, v)
    ensures Ancestor(g, u, v)
  {
    assert PathFromTo(g, [u, v], u, v);
  }

  lemma AncestorStep(g: Graph, a: NodeId, u: NodeId, v: NodeId)
    requires Ancestor(g, a, u) && Edge(g, u, v)
    ensures Ancestor(g, a, v)
  {
    var p :| PathFromTo(g, p, a, u);
    assert PathFromTo(g, p + [v], a, v);
  }

  /** The last edge of a path: an ancestor is a dependency or an ancestor of one. */
  lemma AncestorLastEdge(g: Graph, a: NodeId, v: NodeId) returns (u: NodeId)
    requires Ancestor(g, a, v)
    ensures Edge(g, u, v) && (u == a || Ancestor(g, a, u))
  {
    var p :| PathFromTo(g, p, a, v);
    var k := |p| - 2;
    u := p[k];
    assert p[k + 1] == v;
    if k > 0 {
      assert PathFromTo(g, p[..k + 1], a, u);
    }
  }

  /** Inside a self-dependent set one can walk backwards forever. */
  lemma {:induction false} BackwardWalk(g: Graph, s: set<NodeId>, v: NodeId, n: nat) returns (p: seq<NodeId>)
    requires SelfDependent(g, s) && v in s
    ensures |p| == n + 1 && IsPath(g, p) && p[n] == v
    ensures forall x :: x in p ==> x in s
  {
    if n == 0 {
      return [v];
    }
    var q := BackwardWalk(g, s, v, n - 1);
    assert q[0] in s && DependsInside(g, s, q[0]);
    var u :| u in s && Edge(g, u, q[0]);
    PathPrepend(g, u, q);
    p := [u] + q;
  }

  /** A member of a self-dependent set lies on a cycle or downstream of one. */
  lemma SelfDependentReachesCycle(g: Graph, s: set<NodeId>, v: NodeId) returns (c: NodeId)
    requires SelfDependent(g, s) && v in s
    ensures c in s && Ancestor(g, c, c) && (c == v || Ancestor(g, c, v))
  {
    var p := BackwardWalk(g, s, v, |s|);
    var i, j := Pigeonhole(p, s);
    c := p[i];
    PathSlice(g, p, i, j + 1);
    assert PathFromTo(g, p[i..j + 1], c, c);
    PathSlice(g, p, i, |p|);
    assert PathFromTo(g, p[i..|p|], c, v);
  }

  /** In an acyclic graph every non-empty set of nodes has a member that depends on
      nothing in the set: the induction principle of the scheduler proofs. */
  lemma AcyclicHasSource(g: Graph, s: set<NodeId>) returns (v: NodeId)
    requires Acyclic(g) && s != {}
    requires forall x :: x in s ==> x in g.deps
    ensures v in s && forall u :: u in s ==> !Edge(g, u, v)
  {
    if SelfDependent(g, s) {
      var x :| x in s;
      var c := SelfDependentReachesCycle(g, s, x);
      assert false;
    }
    v :| v in s && !DependsInside(g, s, v);
  }
}
