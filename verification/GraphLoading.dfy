/** From a parsed node list to a runnable graph: duplicate and unknown ids, the wiring of
    the downstream lists, and the two cycle checks of the repository. */
module GraphLoading {
  import opened DependencyGraph
  import opened Kahn

  datatype NodeConfig = NodeConfig(id: NodeId, deps: seq<NodeId>)

  datatype LoadResult =
    | Loaded(g: Graph)
    | DuplicateId(id: NodeId)
    | UnknownDependency(node: NodeId, dep: NodeId)
    | CycleDetected(nodes: set<NodeId>)

  datatype CheckResult =
    | NoCycles
    | CheckUnknown(node: NodeId, dep: NodeId)
    | CheckCycle(nodes: set<NodeId>)

  function Ids(configs: seq<NodeConfig>): (ids: seq<NodeId>)
    ensures |ids| == |configs|
  {
    seq(|configs|, i requires 0 <= i < |configs| => configs[i].id)
  }

  /** The dependencies listed under an id, over all entries that carry it. */
  function DepsOf(configs: seq<NodeConfig>, id: NodeId): seq<NodeId> {
    if configs == [] then []
    else
      var last := configs[|configs| - 1];
      DepsOf(configs[..|configs| - 1], id) + if last.id == id then last.deps else []
  }

  /** The graph the configuration describes; its downstream lists play no part. */
  function Described(configs: seq<NodeConfig>): Graph {
    Graph(Ids(configs), map id | id in Ids(configs) :: DepsOf(configs, id), map[])
  }

  // ------------------------------------------------------------ what the answers mean

  ghost predicate Before(i: int, j: int, i': int, j': int) {
    i < i' || (i == i' && j < j')
  }

  ghost predicate UnknownAt(configs: seq<NodeConfig>, i: int, j: int) {
    0 <= i < |configs| && 0 <= j < |configs[i].deps| && configs[i].deps[j] !in Ids(configs)
  }

  /** Position (i, j) holds the first reference to an id that no node has. */
  ghost predicate FirstUnknownAt(configs: seq<NodeConfig>, i: int, j: int) {
    && UnknownAt(configs, i, j)
    && forall i', j' :: UnknownAt(configs, i', j') ==> !Before(i', j', i, j)
  }

  ghost predicate FirstUnknown(configs: seq<NodeConfig>, node: NodeId, dep: NodeId) {
    exists i, j :: FirstUnknownAt(configs, i, j) && configs[i].id == node && configs[i].deps[j] == dep
  }

  ghost predicate AllKnown(configs: seq<NodeConfig>) {
    forall i, j :: !UnknownAt(configs, i, j)
  }

  ghost predicate FirstDuplicate(configs: seq<NodeConfig>, id: NodeId) {
    exists i {:trigger Ids(configs)[i]} ::
      0 <= i < |configs| && Ids(configs)[i] == id && id in Ids(configs)[..i] && Distinct(Ids(configs)[..i])
  }

  ghost predicate ReportsCycles(configs: seq<NodeConfig>, nodes: set<NodeId>) {
    && !Acyclic(Described(configs))
    && (forall v :: v in nodes <==> CycleBound(Described(configs), v))
  }

  /** What `loadConfig` promises about the graph it leaves behind. */
  ghost predicate LoadAnswer(configs: seq<NodeConfig>, r: LoadResult) {
    match r
    case DuplicateId(id) => FirstDuplicate(configs, id)
    case UnknownDependency(node, dep) => Distinct(Ids(configs)) && FirstUnknown(configs, node, dep)
    case CycleDetected(nodes) => Distinct(Ids(configs)) && AllKnown(configs) && ReportsCycles(configs, nodes)
    case Loaded(g) =>
      && Distinct(Ids(configs)) && AllKnown(configs)
      && WellFormed(g) && Acyclic(g)
      && g.nodes == Ids(configs)
      && (forall i {:trigger configs[i]} :: 0 <= i < |configs| ==>
          configs[i].id in g.deps && g.deps[configs[i].id] == configs[i].deps)
      && SameCounts(g.deps, g.down)
  }

  /** What `check_cycles` promises. */
  ghost predicate CheckAnswer(configs: seq<NodeConfig>, r: CheckResult) {
    match r
    case CheckUnknown(node, dep) => FirstUnknown(configs, node, dep)
    case CheckCycle(nodes) => AllKnown(configs) && ReportsCycles(configs, nodes)
    case NoCycles => AllKnown(configs) && Acyclic(Described(configs))
  }

  /** `down[u]` holds `v` exactly as often as `deps[v]` holds `u`. */
  ghost predicate SameCounts(deps: map<NodeId, seq<NodeId>>, down: map<NodeId, seq<NodeId>>) {
    && deps.Keys == down.Keys
    && (forall u, v :: u in down && v in down[u] ==> v in deps)
    && (forall u, v :: v in deps && u in deps[v] ==> u in down)
    && (forall u, v {:trigger deps[v], down[u]} :: u in down && v in deps ==>
        multiset(down[u])[v] == multiset(deps[v])[u])
  }

  /** The number of downstream entries of each node equals the length of its list. */
  ghost predicate EntriesCounted(deps: map<NodeId, seq<NodeId>>, down: map<NodeId, seq<NodeId>>) {
    forall v {:trigger Entries(down, v)} :: v in deps ==> |Entries(down, v)| == |deps[v]|
  }

  ghost predicate Wired(deps: map<NodeId, seq<NodeId>>, down: map<NodeId, seq<NodeId>>) {
    SameCounts(deps, down) && EntriesCounted(deps, down)
  }

  // ------------------------------------------------------------ wiring

  function Push(m: map<NodeId, seq<NodeId>>, k: NodeId, x: NodeId): map<NodeId, seq<NodeId>>
    requires k in m
  {
    m[k := m[k] + [x]]
  }

  /** One `push_back` on a downstream list accounts for one dependency entry. */
  lemma WirePush(deps: map<NodeId, seq<NodeId>>, down: map<NodeId, seq<NodeId>>, u: NodeId, v: NodeId)
    requires Wired(deps, down) && u in down && v in deps
    ensures Wired(Push(deps, v, u), Push(down, u, v))
  {
    var deps', down' := Push(deps, v, u), Push(down, u, v);
    forall x | x in deps' ensures |Entries(down', x)| == |deps'[x]| {
      PushEntries(down, u, v, x);
    }
    assert EntriesCounted(deps', down');
    PushCounts(deps, down, u, v);
  }

  lemma PushCounts(deps: map<NodeId, seq<NodeId>>, down: map<NodeId, seq<NodeId>>, u: NodeId, v: NodeId)
    requires SameCounts(deps, down) && u in down && v in deps
    ensures SameCounts(Push(deps, v, u), Push(down, u, v))
  {
    var deps', down' := Push(deps, v, u), Push(down, u, v);
    forall a, b | a in down' && b in deps' ensures multiset(down'[a])[b] == multiset(deps'[b])[a] {
      assert multiset(down[a])[b] == multiset(deps[b])[a];
    }
  }

  lemma PushEntries(down: map<NodeId, seq<NodeId>>, u: NodeId, v: NodeId, x: NodeId)
    requires u in down
    ensures |Entries(Push(down, u, v), x)| == |Entries(down, x)| + if x == v then 1 else 0
  {
    hide Entries, Push;
    EntriesAfterPush(down, u, v, x);
  }

  lemma EntriesAfterPush(down: map<NodeId, seq<NodeId>>, u: NodeId, v: NodeId, x: NodeId)
    requires u in down
    ensures Entries(Push(down, u, v), x) == Entries(down, x) + if x == v then {(u, |down[u]|)} else {}
    ensures (u, |down[u]|) !in Entries(down, x)
  {
    var down' := Push(down, u, v);
    var extra := if x == v then {(u, |down[u]|)} else {};
    forall e: (NodeId, int) ensures e in Entries(down', x) <==> e in Entries(down, x) + extra {
      EntryMeans(down, e, x);
      EntryMeans(down', e, x);
    }
  }

  lemma EntryMeans(down: map<NodeId, seq<NodeId>>, e: (NodeId, int), x: NodeId)
    ensures e in Entries(down, x) <==> e.0 in down && 0 <= e.1 < |down[e.0]| && down[e.0][e.1] == x
  {
  }

  lemma WiredIsWellFormed(g: Graph)
    requires Distinct(g.nodes) && (forall n :: n in g.deps <==> n in g.nodes)
    requires Wired(g.deps, g.down)
    ensures WellFormed(g)
  {
    hide Entries, Distinct;
    forall v, u | v in g.deps && u in g.deps[v] ensures u in g.down && v in g.down[u] {
      assert multiset(g.down[u])[v] == multiset(g.deps[v])[u];
      assert u in multiset(g.deps[v]);
      assert v in multiset(g.down[u]);
    }
    forall u, v | u in g.down && v in g.down[u] ensures v in g.deps && u in g.deps[v] {
      assert multiset(g.down[u])[v] == multiset(g.deps[v])[u];
      assert v in multiset(g.down[u]);
      assert u in multiset(g.deps[v]);
    }
    assert forall n :: n in g.down <==> n in g.down.Keys;
  }

  // ------------------------------------------------------------ the configuration read so far

  /** The first `i` entries are taken up, and `j` dependencies of the next. */
  ghost predicate TakenUp(configs: seq<NodeConfig>, i: int, j: int, seen: map<NodeId, seq<NodeId>>)
    requires 0 <= i <= |configs| && (i < |configs| ==> 0 <= j <= |configs[i].deps|)
  {
    && (forall id :: id in seen <==> id in Ids(configs))
    && (forall id :: id in seen ==>
          seen[id] == DepsOf(configs[..i], id)
                    + if i < |configs| && configs[i].id == id then configs[i].deps[..j] else [])
  }

  lemma TakeNothing(configs: seq<NodeConfig>, seen: map<NodeId, seq<NodeId>>)
    requires forall id :: id in seen <==> id in Ids(configs)
    requires forall id :: id in seen ==> seen[id] == []
    ensures TakenUp(configs, 0, 0, seen)
  {
  }

  lemma TakeDep(configs: seq<NodeConfig>, i: nat, j: nat, seen: map<NodeId, seq<NodeId>>)
    requires i < |configs| && j < |configs[i].deps| && TakenUp(configs, i, j, seen)
    ensures configs[i].id in seen
    ensures TakenUp(configs, i, j + 1, Push(seen, configs[i].id, configs[i].deps[j]))
  {
    var c := configs[i];
    assert Ids(configs)[i] == c.id;
    assert c.deps[..j + 1] == c.deps[..j] + [c.deps[j]];
  }

  lemma TakeConfig(configs: seq<NodeConfig>, i: nat, seen: map<NodeId, seq<NodeId>>)
    requires i < |configs| && TakenUp(configs, i, |configs[i].deps|, seen)
    ensures TakenUp(configs, i + 1, 0, seen)
  {
    var c := configs[i];
    assert configs[..i + 1][..i] == configs[..i] && configs[..i + 1][i] == c;
    assert c.deps[..|c.deps|] == c.deps;
    forall id | id in seen ensures seen[id] == DepsOf(configs[..i + 1], id) {
    }
  }

  lemma AllTaken(configs: seq<NodeConfig>, seen: map<NodeId, seq<NodeId>>)
    requires TakenUp(configs, |configs|, 0, seen)
    ensures seen == Described(configs).deps
  {
    assert configs[..|configs|] == configs;
    forall id | id in seen ensures seen[id] == DepsOf(configs, id) {
    }
    assert seen.Keys == Described(configs).deps.Keys;
  }

  ghost predicate NoneUnknownBefore(configs: seq<NodeConfig>, i: int, j: int) {
    forall i', j' :: UnknownAt(configs, i', j') ==> !Before(i', j', i, j)
  }

  lemma KnownStep(configs: seq<NodeConfig>, i: nat, j: nat)
    requires i < |configs| && j < |configs[i].deps| && NoneUnknownBefore(configs, i, j)
    ensures configs[i].deps[j] in Ids(configs) ==> NoneUnknownBefore(configs, i, j + 1)
    ensures configs[i].deps[j] !in Ids(configs) ==> FirstUnknown(configs, configs[i].id, configs[i].deps[j])
  {
    if configs[i].deps[j] !in Ids(configs) {
      assert UnknownAt(configs, i, j);
      assert FirstUnknownAt(configs, i, j);
    }
  }

  lemma KnownConfig(configs: seq<NodeConfig>, i: nat)
    requires i < |configs| && NoneUnknownBefore(configs, i, |configs[i].deps|)
    ensures NoneUnknownBefore(configs, i + 1, 0)
  {
  }

  lemma KnownAll(configs: seq<NodeConfig>)
    requires NoneUnknownBefore(configs, |configs|, 0)
    ensures AllKnown(configs)
  {
    forall i, j ensures !UnknownAt(configs, i, j) {
      if UnknownAt(configs, i, j) {
        assert Before(i, j, |configs|, 0);
      }
    }
  }

  // ------------------------------------------------------------ loadConfig, from node list to graph

  /** Registers every id with an empty downstream list, or finds a duplicate. */
  method RegisterIds(configs: seq<NodeConfig>) returns (duplicate: bool, id: NodeId, down: map<NodeId, seq<NodeId>>)
    ensures duplicate ==> FirstDuplicate(configs, id)
    ensures !duplicate ==>
      && Distinct(Ids(configs))
      && (forall n :: n in down <==> n in Ids(configs))
      && (forall n :: n in down ==> down[n] == [])
  {
    id, down := "", map[];
    for i := 0 to |configs|
      invariant Distinct(Ids(configs)[..i])
      invariant forall n :: n in down <==> n in Ids(configs)[..i]
      invariant forall n :: n in down ==> down[n] == []
    {
      assert Ids(configs)[i] == configs[i].id;
      assert Ids(configs)[..i + 1] == Ids(configs)[..i] + [configs[i].id];
      if configs[i].id in down {
        return true, configs[i].id, down;
      }
      down := down[configs[i].id := []];
    }
    assert Ids(configs)[..|configs|] == Ids(configs);
    duplicate := false;
  }

  /** Looks for a dependency on an id that no node has. */
  method CheckReferences(configs: seq<NodeConfig>, down: map<NodeId, seq<NodeId>>)
    returns (unknown: bool, node: NodeId, dep: NodeId)
    requires forall n :: n in down <==> n in Ids(configs)
    ensures if unknown then FirstUnknown(configs, node, dep) else AllKnown(configs)
  {
    hide Ids, AllKnown, FirstUnknown, NoneUnknownBefore;
    node, dep := "", "";
    assert NoneUnknownBefore(configs, 0, 0) by { NothingBefore(configs); }
    for i := 0 to |configs|
      invariant NoneUnknownBefore(configs, i, 0)
    {
      for j := 0 to |configs[i].deps|
        invariant NoneUnknownBefore(configs, i, j)
      {
        KnownStep(configs, i, j);
        if configs[i].deps[j] !in down {
          return true, configs[i].id, configs[i].deps[j];
        }
      }
      KnownConfig(configs, i);
    }
    KnownAll(configs);
    unknown := false;
  }

  lemma NothingBefore(configs: seq<NodeConfig>)
    ensures NoneUnknownBefore(configs, 0, 0)
  {
  }

  lemma EmptyIsWired(deps: map<NodeId, seq<NodeId>>, down: map<NodeId, seq<NodeId>>)
    requires deps.Keys == down.Keys
    requires forall n :: n in down ==> down[n] == [] && deps[n] == []
    ensures Wired(deps, down)
  {
    forall v | v in deps ensures |Entries(down, v)| == |deps[v]| {
      assert Entries(down, v) == {};
    }
  }

  /** Appends every node to the downstream list of each of its dependencies. */
  method Wire(configs: seq<NodeConfig>, empty: map<NodeId, seq<NodeId>>) returns (down: map<NodeId, seq<NodeId>>)
    requires AllKnown(configs)
    requires forall n :: n in empty <==> n in Ids(configs)
    requires forall n :: n in empty ==> empty[n] == []
    ensures Wired(Described(configs).deps, down)
  {
    hide Wired, TakenUp, Ids, DepsOf, Described, AllKnown;
    down := empty;
    ghost var seen := empty;
    EmptyIsWired(seen, down);
    TakeNothing(configs, seen);
    for i := 0 to |configs|
      invariant down.Keys == empty.Keys && Wired(seen, down) && TakenUp(configs, i, 0, seen)
    {
      for j := 0 to |configs[i].deps|
        invariant down.Keys == empty.Keys && Wired(seen, down) && TakenUp(configs, i, j, seen)
      {
        var dep := configs[i].deps[j];
        DepIsKnown(configs, i, j);
        TakeDep(configs, i, j, seen);
        WirePush(seen, down, dep, configs[i].id);
        down := down[dep := down[dep] + [configs[i].id]];
        seen := Push(seen, configs[i].id, dep);
      }
      TakeConfig(configs, i, seen);
    }
    AllTaken(configs, seen);
  }

  lemma DepIsKnown(configs: seq<NodeConfig>, i: nat, j: nat)
    requires AllKnown(configs) && i < |configs| && j < |configs[i].deps|
    ensures configs[i].deps[j] in Ids(configs)
  {
    assert !UnknownAt(configs, i, j);
  }

  lemma {:induction false} DepsOfAbsent(configs: seq<NodeConfig>, id: NodeId)
    requires id !in Ids(configs)
    ensures DepsOf(configs, id) == []
  {
    if configs != [] {
      var n := |configs| - 1;
      assert Ids(configs)[n] == configs[n].id;
      forall k | 0 <= k < n ensures Ids(configs[..n])[k] != id {
        assert Ids(configs)[k] == Ids(configs[..n])[k];
      }
      DepsOfAbsent(configs[..n], id);
    }
  }

  /** With distinct ids each node's dependencies are those of its one entry. */
  lemma {:induction false} DepsOfDistinct(configs: seq<NodeConfig>, i: nat)
    requires Distinct(Ids(configs)) && i < |configs|
    ensures DepsOf(configs, configs[i].id) == configs[i].deps
  {
    var n := |configs| - 1;
    assert Ids(configs[..n]) == Ids(configs)[..n];
    if i < n {
      assert Ids(configs)[i] != Ids(configs)[n];
      DepsOfDistinct(configs[..n], i);
    } else {
      forall k | 0 <= k < n ensures Ids(configs[..n])[k] != configs[n].id {
        assert Ids(configs)[k] != Ids(configs)[n];
      }
      DepsOfAbsent(configs[..n], configs[n].id);
    }
  }

  /** The initial degrees of `validateDAG`: the length of each dependency list. */
  method InitialDegrees(configs: seq<NodeConfig>) returns (degree: Degrees)
    requires Distinct(Ids(configs))
    ensures degree.Keys == Described(configs).deps.Keys
    ensures forall n :: n in degree ==> degree[n] == |Described(configs).deps[n]|
  {
    hide DepsOf, Distinct;
    degree := map[];
    for i := 0 to |configs|
      invariant forall n :: n in degree <==> n in Ids(configs)[..i]
      invariant forall n :: n in degree ==> degree[n] == |DepsOf(configs, n)|
    {
      DepsOfDistinct(configs, i);
      assert Ids(configs)[..i + 1] == Ids(configs)[..i] + [configs[i].id];
      degree := degree[configs[i].id := |configs[i].deps|];
    }
    assert Ids(configs)[..|configs|] == Ids(configs);
  }

  /** `loadConfig` from the parsed node list on. */
  method LoadGraph(configs: seq<NodeConfig>) returns (r: LoadResult)
    ensures LoadAnswer(configs, r)
  {
    hide WellFormed, Wired, FirstDuplicate, FirstUnknown, AllKnown, Distinct, Acyclic, RightVerdict;
    var duplicate, id, empty := RegisterIds(configs);
    if duplicate {
      return DuplicateId(id);
    }
    var unknown, node, dep := CheckReferences(configs, empty);
    if unknown {
      return UnknownDependency(node, dep);
    }
    var down := Wire(configs, empty);
    var g := Graph(Ids(configs), Described(configs).deps, down);
    WiredIsWellFormed(g);
    var degree := InitialDegrees(configs);
    var verdict, order := Validate(g, down, degree, |configs|);
    VerdictOfDescribed(configs, g, verdict);
    match verdict {
      case CycleInvolving(nodes) =>
        r := CycleDetected(nodes);
      case Accepted =>
        r := Loaded(g);
        forall i | 0 <= i < |configs| ensures configs[i].id in g.deps && g.deps[configs[i].id] == configs[i].deps {
          assert Ids(configs)[i] == configs[i].id;
          DepsOfDistinct(configs, i);
        }
        assert SameCounts(g.deps, g.down) by { WiredCounts(g.deps, g.down); }
    }
  }

  lemma WiredCounts(deps: map<NodeId, seq<NodeId>>, down: map<NodeId, seq<NodeId>>)
    requires Wired(deps, down)
    ensures SameCounts(deps, down)
  {
  }

  // ------------------------------------------------------------ the graph builder's check

  /** Ancestors depend on the dependency lists alone. */
  lemma SameDepsSamePaths(g: Graph, h: Graph, a: NodeId, v: NodeId)
    requires g.deps == h.deps && Ancestor(g, a, v)
    ensures Ancestor(h, a, v)
  {
    var p :| PathFromTo(g, p, a, v);
    forall i, j | 0 <= i && j == i + 1 && j < |p| ensures Edge(h, p[i], p[j]) {
      assert Edge(g, p[i], p[j]);
    }
    assert PathFromTo(h, p, a, v);
  }

  lemma SameDeps(g: Graph, h: Graph)
    requires g.deps == h.deps
    ensures Acyclic(g) ==> Acyclic(h)
    ensures forall v :: CycleBound(g, v) ==> CycleBound(h, v)
  {
    forall a, v | Ancestor(h, a, v) ensures Ancestor(g, a, v) {
      SameDepsSamePaths(h, g, a, v);
    }
    forall v | CycleBound(g, v) ensures CycleBound(h, v) {
      var c :| Ancestor(g, c, c) && (c == v || Ancestor(g, c, v));
      SameDepsSamePaths(g, h, c, c);
      if c != v {
        SameDepsSamePaths(g, h, c, v);
      }
    }
  }

  lemma VerdictOfDescribed(configs: seq<NodeConfig>, g: Graph, v: Verdict)
    requires g.deps == Described(configs).deps && RightVerdict(g, v)
    ensures v.Accepted? ==> Acyclic(g) && Acyclic(Described(configs))
    ensures v.CycleInvolving? ==> ReportsCycles(configs, v.nodes)
  {
    hide Acyclic, CycleBound, Described, SelfDependent;
    SameDeps(g, Described(configs));
    SameDeps(Described(configs), g);
  }

  /** Every id gets a zero degree and an empty successor list; `nodes` is the ghost list
      of the ids in order of first appearance. */
  method CollectIds(configs: seq<NodeConfig>)
    returns (degree: Degrees, adj: map<NodeId, seq<NodeId>>, ghost nodes: seq<NodeId>)
    ensures Distinct(nodes) && (forall n :: n in nodes <==> n in Ids(configs))
    ensures forall n :: n in adj <==> n in Ids(configs)
    ensures degree.Keys == adj.Keys
    ensures forall n :: n in adj ==> adj[n] == [] && degree[n] == 0
  {
    degree, adj, nodes := map[], map[], [];
    for i := 0 to |configs|
      invariant Distinct(nodes) && (forall n :: n in nodes <==> n in Ids(configs)[..i])
      invariant forall n :: n in adj <==> n in Ids(configs)[..i]
      invariant degree.Keys == adj.Keys
      invariant forall n :: n in adj ==> adj[n] == [] && degree[n] == 0
    {
      assert Ids(configs)[..i + 1] == Ids(configs)[..i] + [configs[i].id];
      if configs[i].id !in adj {
        adj := adj[configs[i].id := []];
        degree := degree[configs[i].id := 0];
        nodes := nodes + [configs[i].id];
      }
    }
    assert Ids(configs)[..|configs|] == Ids(configs);
  }

  ghost predicate DegreesOf(degree: Degrees, deps: map<NodeId, seq<NodeId>>) {
    degree.Keys == deps.Keys && forall n :: n in deps ==> degree[n] == |deps[n]|
  }

  lemma DegreeStep(degree: Degrees, deps: map<NodeId, seq<NodeId>>, v: NodeId, u: NodeId)
    requires DegreesOf(degree, deps) && v in deps
    ensures v in degree && DegreesOf(degree[v := degree[v] + 1], Push(deps, v, u))
  {
  }

  /** One pass that rejects unknown references, wires successors and counts degrees. */
  method WireAndCount(configs: seq<NodeConfig>, degree0: Degrees, adj0: map<NodeId, seq<NodeId>>)
    returns (unknown: bool, node: NodeId, dep: NodeId, degree: Degrees, adj: map<NodeId, seq<NodeId>>)
    requires forall n :: n in adj0 <==> n in Ids(configs)
    requires degree0.Keys == adj0.Keys
    requires forall n :: n in adj0 ==> adj0[n] == [] && degree0[n] == 0
    ensures unknown ==> FirstUnknown(configs, node, dep)
    ensures !unknown ==>
      && AllKnown(configs)
      && Wired(Described(configs).deps, adj)
      && DegreesOf(degree, Described(configs).deps)
  {
    hide Wired, TakenUp, Ids, DepsOf, Described, AllKnown, FirstUnknown, NoneUnknownBefore, DegreesOf;
    node, dep, degree, adj := "", "", degree0, adj0;
    ghost var seen := adj0;
    EmptyIsWired(seen, adj);
    TakeNothing(configs, seen);
    assert DegreesOf(degree, seen) by { ZeroDegrees(degree, seen); }
    NothingBefore(configs);
    for i := 0 to |configs|
      invariant adj.Keys == adj0.Keys && degree.Keys == adj0.Keys
      invariant Wired(seen, adj) && TakenUp(configs, i, 0, seen) && DegreesOf(degree, seen)
      invariant NoneUnknownBefore(configs, i, 0)
    {
      for j := 0 to |configs[i].deps|
        invariant adj.Keys == adj0.Keys && degree.Keys == adj0.Keys
        invariant Wired(seen, adj) && TakenUp(configs, i, j, seen) && DegreesOf(degree, seen)
        invariant NoneUnknownBefore(configs, i, j)
      {
        var id, d := configs[i].id, configs[i].deps[j];
        KnownStep(configs, i, j);
        if d !in degree {
          return true, id, d, degree, adj;
        }
        TakeDep(configs, i, j, seen);
        WirePush(seen, adj, d, id);
        DegreeStep(degree, seen, id, d);
        adj := adj[d := adj[d] + [id]];
        degree := degree[id := degree[id] + 1];
        seen := Push(seen, id, d);
      }
      TakeConfig(configs, i, seen);
      KnownConfig(configs, i);
    }
    AllTaken(configs, seen);
    KnownAll(configs);
    unknown := false;
  }

  lemma ZeroDegrees(degree: Degrees, deps: map<NodeId, seq<NodeId>>)
    requires degree.Keys == deps.Keys
    requires forall n :: n in deps ==> deps[n] == [] && degree[n] == 0
    ensures DegreesOf(degree, deps)
  {
  }

  /** `check_cycles`; entries that share an id are merged. */
  method CheckCycles(configs: seq<NodeConfig>) returns (r: CheckResult)
    ensures CheckAnswer(configs, r)
  {
    hide WellFormed, Wired, FirstUnknown, AllKnown, Distinct, Acyclic, RightVerdict;
    var degree0, adj0, nodes := CollectIds(configs);
    var unknown, node, dep, degree, adj := WireAndCount(configs, degree0, adj0);
    if unknown {
      return CheckUnknown(node, dep);
    }
    ghost var g := Graph(nodes, Described(configs).deps, adj);
    WiredIsWellFormed(g);
    NodesAreCounted(g);
    assert degree.Keys == g.deps.Keys;
    var verdict, order := Validate(g, adj, degree, |degree|);
    VerdictOfDescribed(configs, g, verdict);
    match verdict {
      case CycleInvolving(stuck) => r := CheckCycle(stuck);
      case Accepted => r := NoCycles;
    }
  }

  // ------------------------------------------------------------ the two checks together

  lemma FirstUnknownUnique(configs: seq<NodeConfig>, n1: NodeId, d1: NodeId, n2: NodeId, d2: NodeId)
    requires FirstUnknown(configs, n1, d1) && FirstUnknown(configs, n2, d2)
    ensures n1 == n2 && d1 == d2
  {
    var i, j :| FirstUnknownAt(configs, i, j) && configs[i].id == n1 && configs[i].deps[j] == d1;
    var k, l :| FirstUnknownAt(configs, k, l) && configs[k].id == n2 && configs[k].deps[l] == d2;
    assert UnknownAt(configs, i, j) && UnknownAt(configs, k, l);
    assert !Before(i, j, k, l) && !Before(k, l, i, j);
  }

  /** For distinct ids the two implementations give the same answer, down to the unknown
      reference named and the set of nodes reported. */
  lemma SameAnswer(configs: seq<NodeConfig>, r: LoadResult, c: CheckResult)
    requires LoadAnswer(configs, r) && CheckAnswer(configs, c) && Distinct(Ids(configs))
    ensures r.Loaded? <==> c.NoCycles?
    ensures r.UnknownDependency? <==> c.CheckUnknown?
    ensures r.UnknownDependency? ==> c.node == r.node && c.dep == r.dep
    ensures r.CycleDetected? <==> c.CheckCycle?
    ensures r.CycleDetected? ==> c.nodes == r.nodes
  {
    hide Acyclic, CycleBound, Described, WellFormed, SameCounts;
    NoDuplicate(configs);
    if r.UnknownDependency? || c.CheckUnknown? {
      UnknownIsNotKnown(configs);
      if r.UnknownDependency? && c.CheckUnknown? {
        FirstUnknownUnique(configs, r.node, r.dep, c.node, c.dep);
      }
    } else if r.Loaded? {
      LoadedDescribes(configs, r.g);
    }
    if r.CycleDetected? && c.CheckCycle? {
      assert forall v :: v in r.nodes <==> v in c.nodes;
    }
  }

  lemma NoDuplicate(configs: seq<NodeConfig>)
    requires Distinct(Ids(configs))
    ensures forall id :: !FirstDuplicate(configs, id)
  {
  }

  lemma UnknownIsNotKnown(configs: seq<NodeConfig>)
    ensures forall n, d :: FirstUnknown(configs, n, d) ==> !AllKnown(configs)
  {
  }

  lemma NodesAreKeys(g: Graph)
    requires WellFormed(g)
    ensures forall n :: n in g.deps <==> n in g.nodes
  {
  }

  lemma LoadedDescribes(configs: seq<NodeConfig>, g: Graph)
    requires LoadAnswer(configs, Loaded(g))
    ensures g.deps == Described(configs).deps && Acyclic(Described(configs))
  {
    hide Acyclic, SameCounts, AllKnown, WellFormed;
    NodesAreKeys(g);
    assert g.deps.Keys == Described(configs).deps.Keys;
    forall i | 0 <= i < |configs| ensures g.deps[configs[i].id] == DepsOf(configs, configs[i].id) {
      DepsOfDistinct(configs, i);
    }
    forall id | id in g.deps ensures g.deps[id] == DepsOf(configs, id) {
      var i :| 0 <= i < |Ids(configs)| && Ids(configs)[i] == id;
      assert configs[i].id == id;
    }
    SameDeps(g, Described(configs));
  }

  lemma SinkReachesNothing(g: Graph, b: NodeId, v: NodeId)
    requires forall x :: !Edge(g, b, x)
    ensures !Ancestor(g, b, v)
  {
    forall p ensures !PathFromTo(g, p, b, v) {
      if |p| >= 2 && p[0] == b {
        assert !Edge(g, p[0], p[1]);
      }
    }
  }

  lemma LoopWithFollower(g: Graph)
    requires g.deps.Keys == {"A", "B"} && g.deps["A"] == ["A"] && g.deps["B"] == ["A"]
    ensures Ancestor(g, "A", "A") && Ancestor(g, "A", "B") && !Ancestor(g, "B", "B")
  {
    hide IsPath;
    EdgeIsAncestor(g, "A", "A");
    EdgeIsAncestor(g, "A", "B");
    SinkReachesNothing(g, "B", "B");
  }

  /** The nodes reported need not lie on a cycle: with A depending on itself and B on A,
      both are reported although B is on no cycle. */
  lemma ReportedOffCycle(configs: seq<NodeConfig>)
    requires configs == [NodeConfig("A", ["A"]), NodeConfig("B", ["A"])]
    ensures ReportsCycles(configs, {"A", "B"}) && !Ancestor(Described(configs), "B", "B")
  {
    hide Ancestor, DepsOf;
    var g := Described(configs);
    assert Ids(configs) == ["A", "B"];
    DepsOfDistinct(configs, 0);
    DepsOfDistinct(configs, 1);
    LoopWithFollower(g);
  }

  /** Exactly when the nodes reported all lie on cycles: no node off every cycle is
      downstream of one. */
  lemma ReportedOnCyclesIff(configs: seq<NodeConfig>, nodes: set<NodeId>)
    requires ReportsCycles(configs, nodes)
    ensures var g := Described(configs);
      (forall v {:trigger Ancestor(g, v, v)} :: v in nodes ==> Ancestor(g, v, v)) <==>
      (forall c, v {:trigger Ancestor(g, c, v)} :: Ancestor(g, c, c) && Ancestor(g, c, v) ==> Ancestor(g, v, v))
  {
    var g := Described(configs);
    hide Ancestor, Described, Acyclic;
    if forall v {:trigger Ancestor(g, v, v)} :: v in nodes ==> Ancestor(g, v, v) {
      forall c, v | Ancestor(g, c, c) && Ancestor(g, c, v) ensures Ancestor(g, v, v) {
        var u := AncestorLastEdge(g, c, v);
        assert CycleBound(g, v);
        assert v in nodes;
      }
    }
    if forall c, v {:trigger Ancestor(g, c, v)} :: Ancestor(g, c, c) && Ancestor(g, c, v) ==> Ancestor(g, v, v) {
      forall v | v in nodes ensures Ancestor(g, v, v) {
        assert CycleBound(g, v);
        var c :| Ancestor(g, c, c) && (c == v || Ancestor(g, c, v));
      }
    }
  }
}
