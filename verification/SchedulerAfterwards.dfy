/** Conservation during a run, stability after the latch has reached 0, and reruns. */
module SchedulerAfterwards {
  import opened DependencyGraph
  import opened NodeExecution
  import opened SchedulerModel
  import opened SchedulerInvariant
  import opened SchedulerOutcomeSteps
  import opened SchedulerSuccessSteps
  import opened SchedulerMainSteps
  import opened SchedulerRuns
  import opened SchedulerOutcome
  import opened SchedulerProgress

  // ------------------------------------------------------------ conservation

  /** What the three metrics have grown by during this run. */
  function Recorded(j: Job, s: State): int {
    (s.metrics.success - j.base.success) + (s.metrics.failed - j.base.failed) + (s.metrics.cancelled - j.base.cancelled)
  }

  lemma PastPending(j: Job, s: State)
    requires Shape(j, s)
    ensures forall v :: v in s.pc && !Unrecorded(s, v) ==>
      v in s.nodeState && !s.nodeState[v].Pending? && !s.nodeState[v].Running?
  {
  }

  lemma RecordedPartition(j: Job, s: State)
    requires Shape(j, s)
    ensures |RecordedAs(s, Success)| + |RecordedAs(s, Failed)| + |RecordedAs(s, Cancelled)|
         == |set v | v in s.pc && !Unrecorded(s, v)|
  {
    hide Unrecorded;
    PastPending(j, s);
    var a, b, c := RecordedAs(s, Success), RecordedAs(s, Failed), RecordedAs(s, Cancelled);
    assert (set v | v in s.pc && !Unrecorded(s, v)) == a + b + c;
    assert a * b == {} && (a + b) * c == {};
  }

  lemma CountedIsRecorded(j: Job, s: State)
    requires Shape(j, s)
    ensures |s.pc.Keys| == |UncountedSet(s)| + |set v | v in s.pc && !Uncounted(s, v)|
    ensures (set v | v in s.pc && !Uncounted(s, v)) <= (set v | v in s.pc && !Unrecorded(s, v)) <= s.pc.Keys
  {
    var u := UncountedSet(s);
    var c := set v | v in s.pc && !Uncounted(s, v);
    assert u + c == s.pc.Keys && u * c == {};
  }

  lemma SubsetSize<T>(a: set<T>, b: set<T>)
    requires a <= b
    ensures |a| <= |b|
  {
    assert b == a + (b - a);
  }

  /** The latch never goes below 0, and the recorded final states lie between the nodes
      that have counted down and all nodes. */
  lemma Conservation(j: Job, s: State)
    requires Reachable(j, s)
    ensures 0 <= s.latch <= |j.g.nodes|
    ensures |j.g.nodes| - s.latch <= Recorded(j, s) <= |j.g.nodes|
  {
    ReachableInv(j, s);
    if !ResetInv(j, s) {
      ConservationOfInv(j, s);
    }
  }

  lemma ConservationOfInv(j: Job, s: State)
    requires Inv(j, s)
    ensures 0 <= s.latch <= |j.g.nodes|
    ensures |j.g.nodes| - s.latch <= Recorded(j, s) <= |j.g.nodes|
  {
    hide LocalInv, CauseInv, DoomInv, HoldInv, CounterInv, ClaimInv, EnqueueInv, ScanInv, ReadyInv, RunningInv,
      ClosureInv, RecordedAs;
    NodeCount(j, s.pc.Keys);
    RecordedPartition(j, s);
    CountedIsRecorded(j, s);
    hide Uncounted, Unrecorded, UncountedSet, ValidJob;
    var counted := set v | v in s.pc && !Uncounted(s, v);
    var recorded := set v | v in s.pc && !Unrecorded(s, v);
    SubsetSize(counted, recorded);
    SubsetSize(recorded, s.pc.Keys);
  }

  /** The counters are exact at all times, never negative, and 0 for every node claimed. */
  lemma CounterExact(j: Job, s: State, v: NodeId)
    requires Reachable(j, s) && !s.main.Resetting? && v in j.spec
    ensures Shape(j, s) && s.left[v] == |Remaining(j, s.pc, v)|
    ensures Claimed(s.nodeState[v]) ==> s.left[v] == 0
    ensures s.left[v] == 0 ==> DepsSucceeded(j, s, v)
  {
    ReachableInv(j, s);
    assert Inv(j, s);
    hide Remaining, LocalInv, CauseInv, DoomInv, HoldInv, EnqueueInv, ScanInv, ReadyInv, RunningInv, ClosureInv,
      LatchInv;
    if s.left[v] == 0 {
      hide CounterInv, ClaimInv;
      ZeroMeansDepsSucceeded(j, s, v);
    }
  }

  /** The CAS of `scheduleNode` succeeds whenever `run` tries it on a root. */
  lemma RootCasSucceeds(j: Job, s: State)
    requires Reachable(j, s) && s.main.Scanning? && s.main.i < |j.g.nodes|
    ensures Shape(j, s) && j.g.nodes[s.main.i] in j.g.deps && j.g.nodes[s.main.i] in s.nodeState
    ensures j.g.deps[j.g.nodes[s.main.i]] == [] ==> s.nodeState[j.g.nodes[s.main.i]].Pending?
  {
    ReachableInv(j, s);
    hide LocalInv, CauseInv, DoomInv, HoldInv, CounterInv, ClaimInv, EnqueueInv, ScanInv, ReadyInv, RunningInv,
      ClosureInv, LatchInv;
    assert Inv(j, s);
    if j.g.deps[j.g.nodes[s.main.i]] == [] {
      RootFinds(j, s, s.main.i);
    }
  }

  /** The CAS of `scheduleNode` succeeds whenever a worker tries it. */
  lemma ScheduleCasSucceeds(j: Job, s: State, w: NodeId)
    requires Reachable(j, s) && w in s.pc && s.pc[w].Claiming?
    ensures Shape(j, s) && j.g.down[w][s.pc[w].i] in s.nodeState
    ensures s.nodeState[j.g.down[w][s.pc[w].i]].Pending?
  {
    ReachableInv(j, s);
    hide LocalInv, CauseInv, DoomInv, HoldInv, CounterInv, ClaimInv, EnqueueInv, ScanInv, ReadyInv, RunningInv,
      ClosureInv, LatchInv;
    assert Inv(j, s);
    ClaimSucceeds(j, s, w, s.pc[w].i);
  }

  /** Cancellation closure: at any time, an entry of a broken node is handled, on some
      canceller's stack, about to be pushed, or ahead in its owner's loop. */
  lemma CancellationClosure(j: Job, s: State, u: NodeId, v: NodeId)
    requires Reachable(j, s) && !s.main.Resetting? && u in j.g.down && v in j.g.down[u]
    ensures Shape(j, s) && v in s.pc && u in s.nodeState
    ensures Broken(s.nodeState[u]) ==>
              || !s.nodeState[v].Pending?
              || InOwnLoop(j, s, u, v)
              || (exists w :: OnStack(s, w, v))
              || (exists w :: Holds(s, w, u))
  {
    hide LocalInv, CauseInv, DoomInv, HoldInv, CounterInv, ClaimInv, EnqueueInv, ScanInv, ReadyInv, RunningInv,
      LatchInv, Reachable, WellFormed, Acyclic, InOwnLoop, PcInRange;
    ReachableInv(j, s);
    assert Inv(j, s);
    if Broken(s.nodeState[u]) {
      assert Covered(j, s, u, v);
    }
  }

  // ------------------------------------------------------------ after the latch

  /** Nothing an observer of the run can see changes. */
  ghost predicate SameResult(s: State, s': State) {
    && s'.nodeState == s.nodeState && s'.metrics == s.metrics && s'.latch == s.latch
    && s'.pc.Keys == s.pc.Keys
    && (forall n :: n in s.pc ==> (s'.pc[n].Absent? <==> s.pc[n].Absent?))
  }

  lemma WorkerAfterwards(j: Job, s: State, n: NodeId)
    requires Inv(j, s) && s.latch == 0 && WorkerEnabled(s, n)
    ensures SameResult(s, WorkerStep(j, s, n))
  {
    hide LocalInv, CauseInv, DoomInv, HoldInv, CounterInv, ClaimInv, EnqueueInv, ScanInv, ReadyInv, RunningInv,
      ClosureInv, LatchInv, ValidJob, SameResult, StartTask, Attempt1, StoreOutcome, RecordOutcome, CountOutcome,
      Decrement, Claim, Enqueue, Cancel, RecordCancel, CountCancel;
    AllCounted(j, s);
    LocalAt(j, s, n);
    assert !Uncounted(s, n) && Final(s.nodeState[n]);
    match s.pc[n] {
      case Decrementing(i) => DecrementAfterwards(j, s, n, i);
      case Claiming(i) =>
        ClaimSucceeds(j, s, n, i);
        assert false;
      case Enqueueing(i) =>
        EnqueueFinds(j, s, n, i);
        assert false;
      case Cancelling(i, stack) => CancelAfterwards(j, s, n, i, stack);
      case RecordingCancel(i, stack, v) =>
        HoldAfterwards(j, s, n, v);
        assert false;
      case CountingCancel(i, stack, v) =>
        HoldAfterwards(j, s, n, v);
        assert false;
      case _ =>
        assert false;
    }
  }

  lemma DecrementAfterwards(j: Job, s: State, n: NodeId, i: nat)
    requires Shape(j, s) && n in s.pc && s.pc[n] == Decrementing(i) && i <= |j.g.down[n]|
    requires i < |j.g.down[n]| ==> j.g.down[n][i] in s.left
    ensures SameResult(s, Decrement(j, s, n, i))
  {
    hide Shape;
  }

  lemma CancelAfterwards(j: Job, s: State, n: NodeId, i: nat, stack: seq<NodeId>)
    requires Shape(j, s) && n in s.pc && s.pc[n] == Cancelling(i, stack) && i <= |j.g.down[n]|
    requires stack != [] ==> stack[|stack| - 1] in s.nodeState && !s.nodeState[stack[|stack| - 1]].Pending?
    ensures SameResult(s, Cancel(j, s, n, i, stack))
  {
  }

  lemma HoldAfterwards(j: Job, s: State, n: NodeId, v: NodeId)
    requires Shape(j, s) && HoldInv(s) && Holds(s, n, v)
    ensures v in s.pc && Uncounted(s, v)
  {
    assert Held(s, v);
  }

  lemma MainAfterwards(j: Job, s: State)
    requires Inv(j, s) && s.latch == 0 && MainEnabled(s)
    ensures SameResult(s, MainStep(j, s))
  {
    hide LocalInv, CauseInv, DoomInv, HoldInv, CounterInv, ClaimInv, EnqueueInv, ScanInv, ReadyInv, RunningInv,
      ClosureInv, LatchInv, ValidJob;
    AllCounted(j, s);
    if s.main.EnqueueingRoot? {
      RootEnqueueFinds(j, s, s.main.i);
      assert false;
    } else if s.main.Scanning? && s.main.i < |j.g.nodes| && Root(j, j.g.nodes[s.main.i]) {
      RootFinds(j, s, s.main.i);
      assert false;
    }
  }

  lemma NextAfterwards(j: Job, s: State, s': State)
    requires Inv(j, s) && s.latch == 0 && Next(j, s, s')
    ensures Inv(j, s') && SameResult(s, s')
  {
    hide Inv, Shape, WorkerStep, MainStep, SameResult;
    var a :| Enabled(s, a) && s' == Step(j, s, a);
    match a {
      case Main => MainAfterwards(j, s); MainKeepsInv(j, s);
      case Worker(n) => WorkerAfterwards(j, s, n); WorkerKeepsInv(j, s, n);
    }
  }

  /** Stability.  Once the latch is 0, no later step of any handler changes a node state,
      a metric or the latch, or puts a task into the pool. */
  lemma {:induction false} Stability(j: Job, before: State, t: seq<State>, i: nat, k: nat)
    requires IsRun(j, before, t) && i <= k < |t| && t[i].latch == 0
    ensures SameResult(t[i], t[k]) && Inv(j, t[k])
  {
    hide IsRun, Inv, SameResult;
    if i == k {
      PrefixInv(j, before, t, i);
      SameItself(t[i]);
    } else {
      Stability(j, before, t, i, k - 1);
      NextAt(j, before, t, k - 1);
      assert t[k - 1].latch == 0 by { SameLatch(t[i], t[k - 1]); }
      NextAfterwards(j, t[k - 1], t[k]);
      SameThrough(t[i], t[k - 1], t[k]);
    }
  }

  lemma NextAt(j: Job, before: State, t: seq<State>, i: nat)
    requires IsRun(j, before, t) && i + 1 < |t|
    ensures Next(j, t[i], t[i + 1])
  {
  }

  lemma SameItself(s: State)
    ensures SameResult(s, s)
  {
  }

  lemma SameLatch(s: State, s': State)
    requires SameResult(s, s')
    ensures s'.latch == s.latch
  {
  }

  lemma SameThrough(a: State, b: State, c: State)
    requires SameResult(a, b) && SameResult(b, c)
    ensures SameResult(a, c)
  {
  }

  lemma PrefixInv(j: Job, before: State, t: seq<State>, i: nat)
    requires IsRun(j, before, t) && i < |t| && t[i].latch == 0
    ensures Inv(j, t[i])
  {
    hide Next;
    assert IsRun(j, before, t[..i + 1]);
    RunKeepsInv(j, before, t[..i + 1]);
    hide IsRun;
    PastReset(j, t[i]);
  }

  // ------------------------------------------------------------ late handlers

  /** What a handler can still decrement after the latch has reached 0 is the counter of a
      cancelled node. */
  lemma LateDecrement(j: Job, s: State, n: NodeId, i: nat)
    requires Reachable(j, s) && s.latch == 0 && !s.main.Resetting?
    requires n in s.pc && s.pc[n] == Decrementing(i) && n in j.g.down && i < |j.g.down[n]|
    ensures var v := j.g.down[n][i]; v in s.nodeState && s.nodeState[v].Cancelled? && v in s.left && s.left[v] > 0
  {
    hide LocalInv, CauseInv, DoomInv, HoldInv, EnqueueInv, ScanInv, ReadyInv, RunningInv, ClosureInv, LatchInv,
      WellFormed, Acyclic, Reachable;
    ReachableInv(j, s);
    var v := j.g.down[n][i];
    assert (n, i) in Remaining(j, s.pc, v);
    AllCounted(j, s);
    assert !Uncounted(s, v);
  }

  /** The node's counter has its value of this run: the run is past the store that resets it. */
  ghost predicate IsReset(j: Job, s: State, v: NodeId) {
    s.main.Resetting? ==> exists k :: 0 <= k < |j.g.nodes| && k < s.main.i && j.g.nodes[k] == v
  }

  lemma CounterIs(j: Job, s: State, v: NodeId)
    requires Reachable(j, s) && IsReset(j, s, v) && v in s.left
    ensures Shape(j, s) && s.left[v] == if s.main.Resetting? then |j.g.deps[v]| else |Remaining(j, s.pc, v)|
  {
    hide LocalInv, CauseInv, DoomInv, HoldInv, ClaimInv, EnqueueInv, ScanInv, ReadyInv, RunningInv, ClosureInv,
      LatchInv, ValidJob, Reachable, Remaining;
    ReachableInv(j, s);
  }

  /** If it happened in a later run, it would take that run out of the states a run can be
      in, once the node has been reset: the counter would be one below the entries left, and
      the node could be claimed although a dependency is broken.  So `run` has to wait. */
  lemma LateDecrementSpoils(j: Job, s: State, v: NodeId)
    requires Reachable(j, s) && IsReset(j, s, v) && v in s.left
    ensures !Reachable(j, s.(left := s.left[v := s.left[v] - 1]))
  {
    hide Reachable, Remaining;
    var s' := s.(left := s.left[v := s.left[v] - 1]);
    CounterIs(j, s, v);
    if Reachable(j, s') {
      CounterIs(j, s', v);
    }
  }

  // ------------------------------------------------------------ reruns

  lemma SameOutcomes(j: Job, j': Job, n: NodeId)
    requires j' == j.(base := j'.base) && n in j.spec
    ensures Outcome(j', n) == Outcome(j, n)
  {
    assert forall a :: a in j.spec ==> (OwnSuccess(j, a) <==> OwnSuccess(j', a));
    if BrokenAncestor(j, n) {
      var a :| Ancestor(j.g, a, n) && a in j.spec && !OwnSuccess(j, a);
      assert Ancestor(j'.g, a, n) && a in j'.spec && !OwnSuccess(j', a);
    }
    if BrokenAncestor(j', n) {
      var a :| Ancestor(j'.g, a, n) && a in j'.spec && !OwnSuccess(j', a);
      assert Ancestor(j.g, a, n) && a in j.spec && !OwnSuccess(j, a);
    }
  }

  lemma RunInvValid(j: Job, s: State)
    requires RunInv(j, s)
    ensures ValidJob(j)
  {
  }

  /** A completed run leaves the engine as `run` needs it. */
  lemma CompleteIsQuiescent(j: Job, s: State)
    requires Reachable(j, s) && Complete(s)
    ensures Quiescent(j, s)
    ensures IsRun(j.(base := s.metrics), s, [StartRun(j, s)])
  {
    hide Reachable, RunInv, Inv, WellFormed, Acyclic;
    ReachableInv(j, s);
    RunInvValid(j, s);
    var j' := j.(base := s.metrics);
    assert ValidJob(j');
    assert Quiescent(j', s);
  }

  /** A rerun after a completed run shows the same node states and adds the same amounts
      to the metrics, whatever the two interleavings were. */
  lemma RerunAgrees(j: Job, s: State, t: seq<State>)
    requires Reachable(j, s) && Complete(s)
    requires IsRun(j.(base := s.metrics), s, t) && t[|t| - 1].latch == 0
    ensures t[|t| - 1].nodeState == s.nodeState
    ensures t[|t| - 1].metrics.success - s.metrics.success == s.metrics.success - j.base.success
    ensures t[|t| - 1].metrics.failed - s.metrics.failed == s.metrics.failed - j.base.failed
    ensures t[|t| - 1].metrics.cancelled - s.metrics.cancelled == s.metrics.cancelled - j.base.cancelled
  {
    var j' := j.(base := s.metrics);
    ReachableInv(j, s);
    RunKeepsInv(j', s, t);
    hide IsRun, Reachable, RunInv;
    PastReset(j, s) by { CompleteLatch(s); }
    PastReset(j', t[|t| - 1]);
    SameEnd(j, j', s, t[|t| - 1]);
  }

  lemma SameEnd(j: Job, j': Job, s: State, s': State)
    requires Inv(j, s) && s.latch == 0 && Inv(j', s') && s'.latch == 0
    requires j' == j.(base := s.metrics)
    ensures s'.nodeState == s.nodeState
    ensures s'.metrics.success - s.metrics.success == s.metrics.success - j.base.success
    ensures s'.metrics.failed - s.metrics.failed == s.metrics.failed - j.base.failed
    ensures s'.metrics.cancelled - s.metrics.cancelled == s.metrics.cancelled - j.base.cancelled
  {
    hide Inv, Outcome, Ending;
    EndState(j, s);
    EndState(j', s');
    forall n | n in j.spec ensures Outcome(j', n) == Outcome(j, n) {
      SameOutcomes(j, j', n);
    }
    SameEndings(j, j', Success);
    SameEndings(j, j', Failed);
    SameEndings(j, j', Cancelled);
  }

  lemma CompleteLatch(s: State)
    requires Complete(s)
    ensures s.latch == 0
  {
  }

  lemma SameEndings(j: Job, j': Job, st: NodeState)
    requires j' == j.(base := j'.base)
    ensures Ending(j', st) == Ending(j, st)
  {
    forall n | n in j.spec ensures Outcome(j', n) == Outcome(j, n) {
      SameOutcomes(j, j', n);
    }
    hide Outcome;
  }
}
