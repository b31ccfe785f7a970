/** Kahn's algorithm as the engine and the graph builder run it, proved to decide
    acyclicity and to report exactly the nodes on or downstream of a cycle. */
module Kahn {
  import opened Counting
  import opened DependencyGraph

  datatype Verdict = Accepted | CycleInvolving(nodes: set<NodeId>)

  /** Every node stands after all its dependencies. */
  ghost predicate Topological(g: Graph, order: seq<NodeId>) {
    && Distinct(order)
    && (forall v :: v in order <==> v in g.deps)
    && DepsBefore(g, order)
  }

  ghost predicate DepsBefore(g: Graph, order: seq<NodeId>) {
    forall p, u {:trigger Edge(g, u, order[p])} :: 0 <= p < |order| && Edge(g, u, order[p]) ==> u in order[..p]
  }

  /** The nodes on a cycle or downstream of one. */
  ghost predicate CycleBound(g: Graph, v: NodeId) {
    v in g.deps && exists c :: Ancestor(g, c, c) && (c == v || Ancestor(g, c, v))
  }

  // ------------------------------------------------------------ what the order means

  lemma {:induction false} PathClimbs(g: Graph, order: seq<NodeId>, p: seq<NodeId>, a: int, b: int)
    requires DepsBefore(g, order) && Distinct(order) && (forall x :: x in g.deps ==> x in order)
    requires IsPath(g, p) && |p| >= 2
    requires 0 <= b < |order| && order[b] == p[|p| - 1]
    requires 0 <= a < |order| && order[a] == p[0]
    ensures a < b
  {
    var u, v := p[|p| - 2], p[|p| - 1];
    assert Edge(g, u, v);
    assert Edge(g, u, order[b]);
    var c :| 0 <= c < b && order[c] == u;
    if |p| > 2 {
      PathSlice(g, p, 0, |p| - 1);
      PathClimbs(g, order, p[0..|p| - 1], a, c);
    }
  }

  /** A topological order rules out cycles. */
  lemma TopologicalIsAcyclic(g: Graph, order: seq<NodeId>)
    requires Topological(g, order)
    ensures Acyclic(g)
  {
    forall v | v in g.deps ensures !Ancestor(g, v, v) {
      if Ancestor(g, v, v) {
        var p :| PathFromTo(g, p, v, v);
        var a :| 0 <= a < |order| && order[a] == v;
        PathClimbs(g, order, p, a, a);
        assert false;
      }
    }
  }

  /** A self-dependent set never meets what the algorithm has dequeued. */
  lemma {:induction false} DequeuedIsFree(g: Graph, done: seq<NodeId>, s: set<NodeId>)
    requires DepsBefore(g, done) && SelfDependent(g, s)
    ensures forall x :: x in done ==> x !in s
  {
    if done != [] {
      var k := |done| - 1;
      var init := done[..k];
      forall p, u | 0 <= p < |init| && Edge(g, u, init[p]) ensures u in init[..p] {
        assert Edge(g, u, done[p]) && init[..p] == done[..p];
      }
      DequeuedIsFree(g, init, s);
      assert !DependsInside(g, s, done[k]);
      assert done == init + [done[k]];
    }
  }

  lemma CycleBoundSelfDependent(g: Graph, s: set<NodeId>)
    requires forall v :: v in s <==> CycleBound(g, v)
    ensures SelfDependent(g, s)
  {
    forall v | v in s ensures DependsInside(g, s, v) {
      var c :| Ancestor(g, c, c) && (c == v || Ancestor(g, c, v));
      var u := AncestorLastEdge(g, c, v);
      EdgeSource(g, c, v, u);
      assert CycleBound(g, u);
    }
  }

  /** In a well-formed graph the source of an edge is a node. */
  lemma EdgeSource(g: Graph, c: NodeId, v: NodeId, u: NodeId)
    requires Ancestor(g, c, c) && (u == c || Ancestor(g, c, u))
    ensures u in g.deps
  {
    if u == c {
      var _ := AncestorLastEdge(g, c, c);
    } else {
      var _ := AncestorLastEdge(g, c, u);
    }
  }

  /** The nodes left over are self-dependent, every self-dependent set lies within them,
      and they are exactly the nodes on or downstream of a cycle. */
  lemma LeftoverIsCycleBound(g: Graph, done: seq<NodeId>, rest: set<NodeId>)
    requires DepsBefore(g, done) && SelfDependent(g, rest)
    requires forall v :: v in g.deps <==> v in done || v in rest
    ensures forall v :: v in rest <==> CycleBound(g, v)
    ensures forall s: set<NodeId> :: SelfDependent(g, s) ==> s <= rest
    ensures rest != {} ==> !Acyclic(g)
  {
    forall v | v in rest ensures CycleBound(g, v) {
      var c := SelfDependentReachesCycle(g, rest, v);
    }
    forall s: set<NodeId> | SelfDependent(g, s) ensures s <= rest {
      DequeuedIsFree(g, done, s);
      forall x | x in s ensures x in rest {
        assert DependsInside(g, s, x);
      }
    }
    var bound := set v | v in g.deps && CycleBound(g, v);
    CycleBoundSelfDependent(g, bound);
    DequeuedIsFree(g, done, bound);
    forall v | CycleBound(g, v) ensures v in rest {
      assert v in bound;
    }
    if rest != {} {
      var v :| v in rest;
      var c := SelfDependentReachesCycle(g, rest, v);
      assert Ancestor(g, c, c);
      assert c in g.deps;
    }
  }

  // ------------------------------------------------------------ the queue loop

  type Degrees = map<NodeId, int>

  /** `degree[v]` counts the entries of `v` that are not yet in `released`. */
  ghost predicate Counted(g: Graph, degree: Degrees, released: set<(NodeId, int)>) {
    && degree.Keys == g.deps.Keys
    && forall v {:trigger degree[v]} :: v in g.deps ==> degree[v] == |Entries(g.down, v) - released|
  }

  /** The released entries are those in the lists of the dequeued nodes. */
  ghost predicate ReleasedBy(g: Graph, released: set<(NodeId, int)>, done: seq<NodeId>) {
    forall e: (NodeId, int) :: e in released <==> e.0 in g.down && 0 <= e.1 < |g.down[e.0]| && e.0 in done
  }

  /** The same, with only the first `k` entries of the last node `cur` released so far. */
  ghost predicate ReleasedUpTo(g: Graph, released: set<(NodeId, int)>, done: seq<NodeId>, cur: NodeId, k: int) {
    forall e: (NodeId, int) :: e in released <==>
      e.0 in g.down && 0 <= e.1 < |g.down[e.0]| && e.0 in done && (e.0 == cur ==> e.1 < k)
  }

  ghost predicate Queued(g: Graph, degree: Degrees, listed: seq<NodeId>) {
    && degree.Keys == g.deps.Keys
    && Distinct(listed)
    && (forall v {:trigger degree[v]} {:trigger v in listed} :: v in g.deps ==> (v in listed <==> degree[v] == 0))
    && (forall v :: v in listed ==> v in g.deps)
  }

  lemma EntryIsEdge(g: Graph, u: NodeId, k: nat)
    requires WellFormed(g) && u in g.down && k < |g.down[u]|
    ensures u in g.deps && g.down[u][k] in g.deps && Edge(g, u, g.down[u][k])
    ensures (u, k) in Entries(g.down, g.down[u][k])
  {
    assert g.down[u][k] in g.down[u];
  }

  lemma EdgeHasEntry(g: Graph, u: NodeId, v: NodeId) returns (i: nat)
    requires WellFormed(g) && Edge(g, u, v)
    ensures u in g.down && i < |g.down[u]| && g.down[u][i] == v && (u, i) in Entries(g.down, v)
  {
    assert v in g.down[u];
    i :| 0 <= i < |g.down[u]| && g.down[u][i] == v;
  }

  lemma ReleaseOne(g: Graph, released: set<(NodeId, int)>, e: (NodeId, int), v: NodeId)
    requires e !in released
    ensures |Entries(g.down, v) - (released + {e})|
         == |Entries(g.down, v) - released| - if e in Entries(g.down, v) then 1 else 0
  {
    hide Entries;
    var all := Entries(g.down, v);
    if e in all {
      assert all - (released + {e}) == (all - released) - {e};
    } else {
      assert all - (released + {e}) == all - released;
    }
  }

  lemma EntryNamesOne(g: Graph, u: NodeId, k: nat, v: NodeId)
    requires u in g.down && k < |g.down[u]|
    ensures (u, k) in Entries(g.down, v) <==> g.down[u][k] == v
  {
  }

  lemma ReleaseOneMore(g: Graph, released: set<(NodeId, int)>, u: NodeId, k: nat, v: NodeId, x: NodeId)
    requires WellFormed(g) && x in g.deps
    requires u in g.down && k < |g.down[u]| && g.down[u][k] == v && (u, k) !in released
    ensures |Entries(g.down, x) - (released + {(u, k)})| == |Entries(g.down, x) - released| - if x == v then 1 else 0
  {
    hide WellFormed, Entries;
    ReleaseOne(g, released, (u, k), x);
    EntryNamesOne(g, u, k, x);
  }

  lemma ReleaseCounts(g: Graph, degree: Degrees, released: set<(NodeId, int)>, u: NodeId, k: nat, v: NodeId)
    requires WellFormed(g) && Counted(g, degree, released)
    requires u in g.down && k < |g.down[u]| && g.down[u][k] == v && (u, k) !in released
    ensures v in g.deps && v in degree && degree[v] >= 1
    ensures Counted(g, degree[v := degree[v] - 1], released + {(u, k)})
  {
    hide WellFormed, Edge, Entries;
    EntryIsEdge(g, u, k);
    assert (u, k) in Entries(g.down, v) - released by { EntryNamesOne(g, u, k, v); }
    forall x | x in g.deps
      ensures |Entries(g.down, x) - (released + {(u, k)})|
           == |Entries(g.down, x) - released| - if x == v then 1 else 0
    {
      ReleaseOneMore(g, released, u, k, v, x);
    }
  }

  lemma FreeNodeHasDepsDone(g: Graph, degree: Degrees, released: set<(NodeId, int)>, done: seq<NodeId>, v: NodeId)
    requires WellFormed(g) && Counted(g, degree, released)
    requires v in g.deps && degree[v] == 0
    requires ReleasedBy(g, released, done)
    ensures forall u :: Edge(g, u, v) ==> u in done
  {
    hide WellFormed, Entries;
    forall u | Edge(g, u, v) ensures u in done {
      var i := EdgeHasEntry(g, u, v);
      assert Entries(g.down, v) - released == {};
      assert (u, i) !in Entries(g.down, v) - released;
    }
  }

  lemma LeftoverSelfDependent(g: Graph, degree: Degrees, released: set<(NodeId, int)>, done: seq<NodeId>)
    requires WellFormed(g) && Counted(g, degree, released) && Queued(g, degree, done)
    requires ReleasedBy(g, released, done)
    ensures SelfDependent(g, set v | v in g.deps && degree[v] != 0)
  {
    hide WellFormed;
    var rest := set v | v in g.deps && degree[v] != 0;
    forall v | v in rest ensures DependsInside(g, rest, v) {
      assert Entries(g.down, v) - released != {};
      var e :| e in Entries(g.down, v) - released;
      assert g.down[e.0][e.1] == v;
      EntryIsEdge(g, e.0, e.1);
      assert e.0 in rest && Edge(g, e.0, v);
    }
  }

  lemma StartCounted(g: Graph, degree: Degrees)
    requires WellFormed(g) && degree.Keys == g.deps.Keys
    requires forall v :: v in g.deps ==> degree[v] == |g.deps[v]|
    ensures Counted(g, degree, {})
  {
    forall v | v in g.deps ensures degree[v] == |Entries(g.down, v) - {}| {
      assert Entries(g.down, v) - {} == Entries(g.down, v);
    }
  }

  lemma ExtendDepsBefore(g: Graph, done: seq<NodeId>, v: NodeId)
    requires DepsBefore(g, done)
    requires forall u :: Edge(g, u, v) ==> u in done
    ensures DepsBefore(g, done + [v])
  {
    var next := done + [v];
    forall p, u | 0 <= p < |next| && Edge(g, u, next[p]) ensures u in next[..p] {
      if p < |done| {
        assert next[..p] == done[..p] && Edge(g, u, done[p]);
      } else {
        assert next[..p] == done;
      }
    }
  }

  /** The free nodes, in the unspecified order in which a hash map is traversed. */
  method FreeNodes(degree: Degrees) returns (queue: seq<NodeId>)
    ensures Distinct(queue)
    ensures forall v :: v in queue <==> v in degree && degree[v] == 0
  {
    queue := [];
    var left := degree.Keys;
    while left != {}
      invariant left <= degree.Keys
      invariant Distinct(queue)
      invariant forall v :: v in queue <==> v in degree && v !in left && degree[v] == 0
      decreases |left|
    {
      var id :| id in left;
      left := left - {id};
      if degree[id] == 0 {
        queue := queue + [id];
      }
    }
  }

  lemma QueuedStep(g: Graph, degree: Degrees, listed: seq<NodeId>, v: NodeId)
    requires Queued(g, degree, listed) && v in g.deps && degree[v] >= 1
    ensures Queued(g, degree[v := degree[v] - 1], if degree[v] == 1 then listed + [v] else listed)
  {
    assert v !in listed;
  }

  lemma ReleasedStep(g: Graph, released: set<(NodeId, int)>, done: seq<NodeId>, cur: NodeId, k: nat)
    requires ReleasedUpTo(g, released, done, cur, k) && cur in done && cur in g.down && k < |g.down[cur]|
    ensures (cur, k) !in released && ReleasedUpTo(g, released + {(cur, k)}, done, cur, k + 1)
  {
  }

  /** Lowers the degree of everything downstream of `cur`, queueing what becomes free. */
  method LowerDegrees(ghost g: Graph, down: map<NodeId, seq<NodeId>>, cur: NodeId, degree: Degrees,
                      queue: seq<NodeId>, ghost order: seq<NodeId>, ghost released: set<(NodeId, int)>)
    returns (lowered: Degrees, queue': seq<NodeId>, ghost released': set<(NodeId, int)>)
    requires WellFormed(g) && Counted(g, degree, released) && Queued(g, degree, order + queue)
    requires g.down == down && cur in order && cur in down && ReleasedUpTo(g, released, order, cur, 0)
    ensures Counted(g, lowered, released') && Queued(g, lowered, order + queue')
    ensures ReleasedUpTo(g, released', order, cur, |g.down[cur]|)
  {
    hide WellFormed, Counted, Queued, ReleasedUpTo, Entries;
    lowered, queue', released' := degree, queue, released;
    for k := 0 to |down[cur]|
      invariant Counted(g, lowered, released') && Queued(g, lowered, order + queue')
      invariant ReleasedUpTo(g, released', order, cur, k)
    {
      var v := down[cur][k];
      ReleasedStep(g, released', order, cur, k);
      ReleaseCounts(g, lowered, released', cur, k, v);
      QueuedStep(g, lowered, order + queue', v);
      assert order + (queue' + [v]) == (order + queue') + [v];
      released' := released' + {(cur, k)};
      lowered := lowered[v := lowered[v] - 1];
      if lowered[v] == 0 {
        queue' := queue' + [v];
      }
    }
  }

  /** What holds each time the queue is inspected. */
  ghost predicate Draining(g: Graph, degree: Degrees, queue: seq<NodeId>, order: seq<NodeId>,
                           released: set<(NodeId, int)>) {
    && Counted(g, degree, released)
    && Queued(g, degree, order + queue)
    && ReleasedBy(g, released, order)
    && DepsBefore(g, order)
  }

  lemma Dequeue(g: Graph, degree: Degrees, queue: seq<NodeId>, order: seq<NodeId>, released: set<(NodeId, int)>)
    requires WellFormed(g) && Draining(g, degree, queue, order, released) && queue != []
    ensures queue[0] in g.down && |order| < |g.deps|
    ensures Queued(g, degree, (order + [queue[0]]) + queue[1..])
    ensures DepsBefore(g, order + [queue[0]])
    ensures ReleasedUpTo(g, released, order + [queue[0]], queue[0], 0)
  {
    hide Counted, Entries;
    var cur := queue[0];
    assert (order + queue)[|order|] == cur;
    assert cur in order + queue;
    forall i | 0 <= i < |order| ensures order[i] != cur {
      assert (order + queue)[i] == order[i];
    }
    assert degree[cur] == 0;
    FreeNodeHasDepsDone(g, degree, released, order, cur);
    ExtendDepsBefore(g, order, cur);
    assert order + queue == (order + [cur]) + queue[1..];
    DistinctBound(g, order + queue);
  }

  /** Takes free nodes off the queue, lowering the degree of what depends on them.
      `order` is the ghost record of what was taken, in order. */
  method Drain(ghost g: Graph, down: map<NodeId, seq<NodeId>>, start: Degrees)
    returns (visited: int, degree: Degrees, ghost order: seq<NodeId>)
    requires WellFormed(g) && g.down == down && start.Keys == g.deps.Keys
    requires forall v :: v in g.deps ==> start[v] == |g.deps[v]|
    ensures visited == |order| && Queued(g, degree, order) && DepsBefore(g, order)
    ensures SelfDependent(g, set v | v in g.deps && degree[v] != 0)
    ensures forall v :: v in degree ==> degree[v] >= 0
  {
    hide Entries, Counted, DepsBefore, WellFormed, Queued, ReleasedBy, ReleasedUpTo, SelfDependent;
    degree := start;
    var queue := FreeNodes(degree);
    visited := 0;
    order := [];
    ghost var released: set<(NodeId, int)> := {};
    StartDraining(g, degree, queue);
    while queue != []
      invariant visited == |order|
      invariant Draining(g, degree, queue, order, released)
      decreases |g.deps| - |order|
    {
      var cur := queue[0];
      Dequeue(g, degree, queue, order, released);
      queue := queue[1..];
      visited := visited + 1;
      order := order + [cur];
      degree, queue, released := LowerDegrees(g, down, cur, degree, queue, order, released);
      LoweredIsReleased(g, released, order, cur);
    }
    DrainedStop(g, degree, order, released);
  }

  lemma StartDraining(g: Graph, degree: Degrees, queue: seq<NodeId>)
    requires WellFormed(g) && degree.Keys == g.deps.Keys
    requires forall v :: v in g.deps ==> degree[v] == |g.deps[v]|
    requires Distinct(queue) && forall v :: v in queue <==> v in degree && degree[v] == 0
    ensures Draining(g, degree, queue, [], {})
  {
    hide WellFormed, Counted, Entries;
    StartCounted(g, degree);
    assert [] + queue == queue;
  }

  lemma LoweredIsReleased(g: Graph, released: set<(NodeId, int)>, order: seq<NodeId>, cur: NodeId)
    requires cur in g.down && ReleasedUpTo(g, released, order, cur, |g.down[cur]|)
    ensures ReleasedBy(g, released, order)
  {
  }

  lemma DrainedStop(g: Graph, degree: Degrees, order: seq<NodeId>, released: set<(NodeId, int)>)
    requires WellFormed(g) && Draining(g, degree, [], order, released)
    ensures Queued(g, degree, order) && DepsBefore(g, order)
    ensures SelfDependent(g, set v | v in g.deps && degree[v] != 0)
    ensures forall v :: v in degree ==> degree[v] >= 0
  {
    hide WellFormed, Entries, Queued, ReleasedBy, DepsBefore, SelfDependent;
    assert order + [] == order;
    LeftoverSelfDependent(g, degree, released, order);
  }

  lemma {:induction false} DistinctBound(g: Graph, s: seq<NodeId>)
    requires Distinct(s) && forall v :: v in s ==> v in g.deps
    ensures |s| <= |g.deps|
  {
    if |s| > |g.deps| {
      var i, j := Pigeonhole(s, g.deps.Keys);
      assert false;
    }
  }

  /** The nodes whose degree stayed positive, as the error message lists them. */
  method Stuck(degree: Degrees) returns (nodes: set<NodeId>)
    ensures nodes == set v | v in degree && degree[v] > 0
  {
    nodes := {};
    var left := degree.Keys;
    while left != {}
      invariant left <= degree.Keys
      invariant nodes == set v | v in degree && v !in left && degree[v] > 0
      decreases |left|
    {
      var id :| id in left;
      left := left - {id};
      if degree[id] > 0 {
        nodes := nodes + {id};
      }
    }
  }

  // ------------------------------------------------------------ the verdict

  lemma {:induction false} SetOfSeqSize<T>(s: seq<T>)
    ensures |set x | x in s| <= |s|
  {
    if s != [] {
      var init := s[..|s| - 1];
      SetOfSeqSize(init);
      assert (set x | x in s) == (set x | x in init) + {s[|s| - 1]};
    }
  }

  lemma DistinctFits<T>(a: seq<T>, b: seq<T>)
    requires Distinct(a) && forall x :: x in a ==> x in b
    ensures |a| <= |b|
    ensures |a| == |b| ==> forall x :: x in b ==> x in a
  {
    var s := set x | x in b;
    SetOfSeqSize(b);
    if |a| > |b| {
      var i, j := Pigeonhole(a, s);
      assert false;
    }
    forall x | |a| == |b| && x in b ensures x in a {
      var i, j := Pigeonhole(a + [x], s);
      if j < |a| {
        assert false;
      }
    }
  }

  lemma NodesAreCounted(g: Graph)
    requires WellFormed(g)
    ensures |g.nodes| == |g.deps|
  {
    hide Entries;
    SetOfSeqSize(g.nodes);
    assert (set x | x in g.nodes) == g.deps.Keys;
    DistinctBound(g, g.nodes);
  }

  /** When the queue runs empty: every node was visited iff the graph is acyclic, and the
      nodes left with a positive degree are those on or downstream of a cycle, the largest
      set in which every node has a dependency inside the set. */
  lemma WhenDrained(g: Graph, degree: Degrees, order: seq<NodeId>)
    requires WellFormed(g) && Queued(g, degree, order) && DepsBefore(g, order)
    requires SelfDependent(g, set v | v in g.deps && degree[v] != 0)
    requires forall v :: v in degree ==> degree[v] >= 0
    ensures |order| == |g.nodes| <==> Acyclic(g)
    ensures Acyclic(g) ==> Topological(g, order)
    ensures forall v :: v in degree && degree[v] > 0 <==> CycleBound(g, v)
    ensures forall s: set<NodeId> :: SelfDependent(g, s) ==> s <= set v | v in degree && degree[v] > 0
  {
    hide Entries, DepsBefore, SelfDependent, CycleBound;
    var rest := set v | v in g.deps && degree[v] != 0;
    LeftoverIsCycleBound(g, order, rest);
    assert rest == set v | v in degree && degree[v] > 0;
    DistinctFits(order, g.nodes);
    if rest == {} {
      assert forall v :: v in g.nodes ==> v in order by {
        assert forall v :: v in g.nodes ==> v in g.deps && v !in rest;
      }
      DistinctFits(g.nodes, order);
      TopologicalIsAcyclic(g, order);
    } else {
      var v :| v in rest;
      assert v in g.nodes && v !in order;
    }
  }

  /** What both validations answer. */
  ghost predicate RightVerdict(g: Graph, v: Verdict) {
    match v
    case Accepted => Acyclic(g)
    case CycleInvolving(nodes) =>
      && !Acyclic(g)
      && SelfDependent(g, nodes)
      && (forall s: set<NodeId> :: SelfDependent(g, s) ==> s <= nodes)
      && (forall n :: n in nodes <==> CycleBound(g, n))
  }

  /** Kahn's algorithm from the initial degrees to the verdict. */
  method Validate(ghost g: Graph, down: map<NodeId, seq<NodeId>>, start: Degrees, total: int)
    returns (v: Verdict, ghost order: seq<NodeId>)
    requires WellFormed(g) && g.down == down && start.Keys == g.deps.Keys
    requires total == |g.nodes|
    requires forall n :: n in g.deps ==> start[n] == |g.deps[n]|
    ensures RightVerdict(g, v)
    ensures v.Accepted? ==> Topological(g, order)
  {
    hide WellFormed, Queued, DepsBefore, SelfDependent, CycleBound, Acyclic, Topological;
    var visited, degree;
    visited, degree, order := Drain(g, down, start);
    WhenDrained(g, degree, order);
    if visited == total {
      return Accepted, order;
    }
    var nodes := Stuck(degree);
    assert nodes == set n | n in g.deps && degree[n] != 0 by {
      assert degree.Keys == g.deps.Keys by { QueuedKeys(g, degree, order); }
    }
    v := CycleInvolving(nodes);
  }

  lemma QueuedKeys(g: Graph, degree: Degrees, listed: seq<NodeId>)
    requires Queued(g, degree, listed)
    ensures degree.Keys == g.deps.Keys
  {
  }
}
