/** Confluence: whatever the interleaving, a run ends in the state vector that the graph
    and the nodes' own outcomes determine. */
module SchedulerOutcome {
  import opened DependencyGraph
  import opened NodeExecution
  import opened SchedulerModel
  import opened SchedulerInvariant
  import opened SchedulerOutcomeSteps
  import opened SchedulerRuns

  /** Some proper ancestor's own work fails. */
  ghost predicate BrokenAncestor(j: Job, n: NodeId) {
    exists a :: Ancestor(j.g, a, n) && a in j.spec && !OwnSuccess(j, a)
  }

  /** The state a node must end in. */
  ghost function Outcome(j: Job, n: NodeId): NodeState
    requires n in j.spec
  {
    if BrokenAncestor(j, n) then Cancelled else if OwnSuccess(j, n) then Success else Failed
  }

  lemma OutcomeOfEdge(j: Job, u: NodeId, v: NodeId)
    requires ValidJob(j) && Edge(j.g, u, v) && u in j.spec && v in j.spec
    ensures Outcome(j, u) != Success ==> Outcome(j, v) == Cancelled
  {
    if Outcome(j, u).Failed? {
      EdgeIsAncestor(j.g, u, v);
    } else if Outcome(j, u).Cancelled? {
      var a :| Ancestor(j.g, a, u) && a in j.spec && !OwnSuccess(j, a);
      AncestorStep(j.g, a, u, v);
    }
  }

  /** The outcome by recursion over the graph: a node runs exactly when all its
      dependencies succeed. */
  lemma OutcomeRecursion(j: Job, v: NodeId)
    requires ValidJob(j) && v in j.spec
    ensures forall u :: u in j.g.deps[v] ==> u in j.spec
    ensures Outcome(j, v) == if exists u :: u in j.g.deps[v] && Outcome(j, u) != Success then Cancelled
                             else if OwnSuccess(j, v) then Success else Failed
  {
    forall u | u in j.g.deps[v] ensures u in j.spec && (Outcome(j, u) != Success ==> Outcome(j, v) == Cancelled) {
      assert u in j.g.down;
      OutcomeOfEdge(j, u, v);
    }
    if BrokenAncestor(j, v) {
      var a :| Ancestor(j.g, a, v) && a in j.spec && !OwnSuccess(j, a);
      var u := AncestorLastEdge(j.g, a, v);
      assert u in j.g.deps[v] && Outcome(j, u) != Success;
    }
  }

  ghost predicate Final(st: NodeState) {
    st.Success? || st.Failed? || st.Cancelled?
  }

  /** If the dependencies that have a final state have the right one, so has the node. */
  lemma FinalAfterDeps(j: Job, s: State, v: NodeId)
    requires ValidJob(j) && Shape(j, s) && LocalInv(j, s) && CauseInv(j, s) && DoomInv(j, s)
    requires v in s.pc && Final(s.nodeState[v])
    requires forall u :: u in s.pc && u in j.g.deps[v] && Final(s.nodeState[u]) ==> s.nodeState[u] == Outcome(j, u)
    ensures s.nodeState[v] == Outcome(j, v)
  {
    hide BrokenAncestor, OwnSuccess, WellFormed;
    OutcomeRecursion(j, v);
    hide Outcome;
    LocalAt(j, s, v);
    if s.nodeState[v].Cancelled? {
      assert Doomed(j, s, v);
      var u :| u in j.g.deps[v] && u in s.nodeState && Broken(s.nodeState[u]);
      assert u in s.pc && s.nodeState[u] == Outcome(j, u);
    } else {
      assert DepsSucceeded(j, s, v);
      forall u | u in j.g.deps[v] ensures Outcome(j, u) == Success {
        assert u in s.pc;
      }
    }
  }

  /** In every reachable state, a node that has a final state has its outcome. */
  lemma FinalIsOutcome(j: Job, s: State)
    requires Inv(j, s)
    ensures forall v :: v in s.pc && Final(s.nodeState[v]) ==> s.nodeState[v] == Outcome(j, v)
  {
    hide LocalInv, CauseInv, DoomInv, HoldInv, CounterInv, ClaimInv, EnqueueInv, ScanInv, ReadyInv, RunningInv,
      ClosureInv, LatchInv, Outcome, BrokenAncestor, WellFormed, Acyclic;
    var wrong := set v | v in s.pc && Final(s.nodeState[v]) && s.nodeState[v] != Outcome(j, v);
    if wrong != {} {
      var v := AcyclicHasSource(j.g, wrong);
      forall u | u in s.pc && u in j.g.deps[v] && Final(s.nodeState[u]) ensures s.nodeState[u] == Outcome(j, u) {
        assert Edge(j.g, u, v);
      }
      FinalAfterDeps(j, s, v);
      assert false;
    }
    forall v | v in s.pc && Final(s.nodeState[v]) ensures s.nodeState[v] == Outcome(j, v) {
      assert v !in wrong;
    }
  }

  lemma AllCounted(j: Job, s: State)
    requires Inv(j, s) && s.latch == 0
    ensures forall v :: v in s.pc ==> !Uncounted(s, v)
    ensures forall v :: v in s.pc ==> Final(s.nodeState[v])
  {
    hide LocalInv, CauseInv, DoomInv, HoldInv, CounterInv, ClaimInv, EnqueueInv, ScanInv, ReadyInv, RunningInv,
      ClosureInv, ValidJob;
    assert UncountedSet(s) == {};
    forall v | v in s.pc ensures !Uncounted(s, v) {
      assert v !in UncountedSet(s);
    }
  }

  /** The nodes that must end in state `st`. */
  ghost function Ending(j: Job, st: NodeState): set<NodeId> {
    set n | n in j.spec && Outcome(j, n) == st
  }

  lemma RecordedAtEnd(j: Job, s: State, st: NodeState)
    requires Shape(j, s) && (forall v :: v in s.pc ==> !Uncounted(s, v) && s.nodeState[v] == Outcome(j, v))
    ensures RecordedAs(s, st) == Ending(j, st)
  {
    hide Outcome;
    forall v | v in s.pc ensures !Unrecorded(s, v) {
      assert !Uncounted(s, v);
    }
  }

  lemma EndState(j: Job, s: State)
    requires Inv(j, s) && s.latch == 0
    ensures s.nodeState.Keys == j.spec.Keys
    ensures forall n :: n in j.spec ==> s.nodeState[n] == Outcome(j, n)
    ensures s.metrics == Metrics(j.base.success + |Ending(j, Success)|,
                                 j.base.failed + |Ending(j, Failed)|,
                                 j.base.cancelled + |Ending(j, Cancelled)|)
  {
    hide LocalInv, CauseInv, DoomInv, HoldInv, CounterInv, ClaimInv, EnqueueInv, ScanInv, ReadyInv, RunningInv,
      ClosureInv, ValidJob, Outcome, Ending, RecordedAs, UncountedSet;
    FinalIsOutcome(j, s);
    AllCounted(j, s);
    RecordedAtEnd(j, s, Success);
    RecordedAtEnd(j, s, Failed);
    RecordedAtEnd(j, s, Cancelled);
  }

  /** Confluence.  Any run whose latch has reached 0, by whatever interleaving, shows
      every node in its outcome state, and the metrics have grown by exactly the number
      of nodes with each outcome. */
  lemma Confluence(j: Job, before: State, t: seq<State>)
    requires IsRun(j, before, t) && t[|t| - 1].latch == 0
    ensures t[|t| - 1].nodeState.Keys == j.spec.Keys
    ensures forall n :: n in j.spec ==> t[|t| - 1].nodeState[n] == Outcome(j, n)
    ensures t[|t| - 1].metrics == Metrics(j.base.success + |Ending(j, Success)|,
                                          j.base.failed + |Ending(j, Failed)|,
                                          j.base.cancelled + |Ending(j, Cancelled)|)
  {
    var s := t[|t| - 1];
    RunKeepsInv(j, before, t);
    hide IsRun, Inv, Outcome;
    assert Inv(j, s) by { PastReset(j, s); }
    EndState(j, s);
  }

  /** While the reset loop is under way the latch is still at its start value. */
  lemma PastReset(j: Job, s: State)
    requires RunInv(j, s) && s.latch == 0
    ensures Inv(j, s)
  {
  }

  lemma SpecIsNodes(j: Job)
    requires ValidJob(j)
    ensures forall n :: n in j.spec <==> n in j.g.deps
  {
    hide Entries, Acyclic;
  }

  /** A source among the ancestors of `n` that did not succeed was not cancelled itself. */
  lemma SourceNotCancelled(j: Job, n: NodeId, a: NodeId, bad: set<NodeId>)
    requires ValidJob(j) && a in bad && (forall u :: u in bad ==> !Edge(j.g, u, a))
    requires forall x :: x in bad <==> x in j.spec && Ancestor(j.g, x, n) && Outcome(j, x) != Success
    ensures !Outcome(j, a).Cancelled?
  {
    hide Outcome, Ancestor, Acyclic, WellFormed;
    SpecIsNodes(j);
    OutcomeRecursion(j, a);
    forall u | u in j.g.deps[a] ensures Outcome(j, u) == Success {
      assert Edge(j.g, u, a);
      EdgeThenAncestor(j.g, u, a, n);
      assert u !in bad;
    }
  }

  /** A node is cancelled exactly when some proper ancestor ends as Failed. */
  lemma CancelledIffFailedAncestor(j: Job, n: NodeId)
    requires ValidJob(j) && n in j.spec
    ensures Outcome(j, n) == Cancelled <==> exists a :: a in j.spec && Ancestor(j.g, a, n) && Outcome(j, a) == Failed
  {
    hide OwnSuccess, Acyclic, Ancestor, WellFormed, Entries;
    if BrokenAncestor(j, n) {
      var bad := set a | a in j.spec && Ancestor(j.g, a, n) && Outcome(j, a) != Success;
      var b :| Ancestor(j.g, b, n) && b in j.spec && !OwnSuccess(j, b);
      assert b in bad;
      SpecIsNodes(j);
      var a := AcyclicHasSource(j.g, bad);
      assert !Outcome(j, a).Cancelled? by {
        SourceNotCancelled(j, n, a, bad);
      }
    }
  }

  lemma EdgeThenAncestor(g: Graph, u: NodeId, a: NodeId, n: NodeId)
    requires Edge(g, u, a) && Ancestor(g, a, n)
    ensures Ancestor(g, u, n)
  {
    var p :| PathFromTo(g, p, a, n);
    PathPrepend(g, u, p);
    assert PathFromTo(g, [u] + p, u, n);
  }

  /** The nodes that `run` has reset are Pending until the reset ends. */
  lemma ResetIsPending(j: Job, s: State, k: nat)
    requires Reachable(j, s) && s.main.Resetting? && k < s.main.i
    ensures k < |j.g.nodes| && j.g.nodes[k] in s.nodeState && s.nodeState[j.g.nodes[k]].Pending?
  {
    ReachableInv(j, s);
  }

  /** From the end of the reset on, a node is at every moment Pending, Running or already in
      its outcome state, and it is Running only if all its dependencies have succeeded. */
  lemma AlwaysTowardsOutcome(j: Job, s: State, n: NodeId)
    requires Reachable(j, s) && !s.main.Resetting? && n in j.spec
    ensures n in s.nodeState
    ensures s.nodeState[n].Pending? || s.nodeState[n].Running? || s.nodeState[n] == Outcome(j, n)
    ensures s.nodeState[n].Running? ==> Outcome(j, n) != Cancelled
    ensures s.nodeState[n].Running? ==> forall u :: u in j.g.deps[n] ==> u in s.nodeState && s.nodeState[u].Success?
  {
    hide Outcome, LocalInv, DoomInv, HoldInv, CounterInv, ClaimInv, EnqueueInv, ScanInv, ReadyInv, RunningInv,
      ClosureInv, LatchInv, PcInRange, WellFormed, Acyclic, Reachable;
    ReachableInv(j, s);
    assert Inv(j, s);
    FinalIsOutcome(j, s);
    if s.nodeState[n].Running? {
      assert DepsSucceeded(j, s, n);
      OutcomeRecursion(j, n);
      forall u | u in j.g.deps[n] ensures Outcome(j, u) == Success {
        assert u in s.pc;
      }
    }
  }
}
