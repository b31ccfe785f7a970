/** The inductive invariant of the scheduler protocol, in five groups. */
module SchedulerInvariant {
  import opened DependencyGraph
  import opened NodeExecution
  import opened SchedulerModel

  // ------------------------------------------------------------ reading a state

  ghost predicate Broken(st: NodeState) {
    st.Failed? || st.Cancelled?
  }

  ghost predicate Claimed(st: NodeState) {
    st.Running? || st.Success? || st.Failed?
  }

  ghost predicate DepsSucceeded(j: Job, s: State, v: NodeId)
    requires Shape(j, s) && v in s.pc
  {
    forall u :: u in j.g.deps[v] ==> u in s.nodeState && s.nodeState[u].Success?
  }

  /** Some dependency has failed or was cancelled. */
  ghost predicate Doomed(j: Job, s: State, v: NodeId)
    requires Shape(j, s) && v in s.pc
  {
    exists u :: u in j.g.deps[v] && u in s.nodeState && Broken(s.nodeState[u])
  }

  /** How many downstream entries of `u` have been decremented. */
  ghost function Decremented(j: Job, u: NodeId, pc: Pc): nat
    requires u in j.g.down
  {
    match pc
    case Decrementing(i) => i
    case Claiming(i) => i + 1
    case Enqueueing(i) => i + 1
    case Finished(ok) => if ok then |j.g.down[u]| else 0
    case _ => 0
  }

  /** The downstream entries naming `v` whose decrement has not happened yet. */
  ghost function Remaining(j: Job, pcs: map<NodeId, Pc>, v: NodeId): set<(NodeId, int)>
    requires pcs.Keys == j.g.down.Keys
  {
    set u, i | u in j.g.down && Decremented(j, u, pcs[u]) <= i < |j.g.down[u]| && j.g.down[u][i] == v :: (u, i)
  }

  /** Worker `w` is about to run the CAS of `scheduleNode` on `v`. */
  ghost predicate Claims(j: Job, s: State, w: NodeId, v: NodeId)
    requires Shape(j, s)
  {
    w in s.pc && s.pc[w].Claiming? && j.g.down[w][s.pc[w].i] == v
  }

  /** Worker `w` won that CAS and is about to enqueue `v`. */
  ghost predicate Enqueues(j: Job, s: State, w: NodeId, v: NodeId)
    requires Shape(j, s)
  {
    w in s.pc && s.pc[w].Enqueueing? && j.g.down[w][s.pc[w].i] == v
  }

  ghost predicate MainEnqueues(j: Job, s: State, v: NodeId)
    requires Shape(j, s)
  {
    s.main.EnqueueingRoot? && j.g.nodes[s.main.i] == v
  }

  ghost predicate InCancel(pc: Pc) {
    pc.Cancelling? || pc.RecordingCancel? || pc.CountingCancel?
  }

  ghost predicate OnStack(s: State, w: NodeId, v: NodeId) {
    w in s.pc && InCancel(s.pc[w]) && v in s.pc[w].stack
  }

  /** Worker `w` has cancelled `v` and not yet pushed its downstream entries. */
  ghost predicate Holds(s: State, w: NodeId, v: NodeId) {
    w in s.pc && (s.pc[w].RecordingCancel? || s.pc[w].CountingCancel?) && s.pc[w].v == v
  }

  /** The main thread's scan has not reached position `k` yet. */
  ghost predicate AheadOfScan(s: State, k: int) {
    (s.main.Scanning? && s.main.i <= k) || (s.main.EnqueueingRoot? && s.main.i < k)
  }

  /** `v` occurs among the entries of `list` from position `i` on. */
  ghost predicate Ahead(list: seq<NodeId>, i: int, v: NodeId) {
    exists k :: 0 <= i <= k < |list| && list[k] == v
  }

  ghost predicate UntraversedAt(pc: Pc, list: seq<NodeId>, v: NodeId) {
    match pc
    case Recording(ok) => !ok
    case Counting(ok) => !ok
    case Cancelling(i, _) => Ahead(list, i, v)
    case RecordingCancel(i, _, _) => Ahead(list, i, v)
    case CountingCancel(i, _, _) => Ahead(list, i, v)
    case _ => false
  }

  /** The entry for `v` still lies in the untraversed part of `u`'s own downstream loop. */
  ghost predicate InOwnLoop(j: Job, s: State, u: NodeId, v: NodeId)
    requires Shape(j, s)
  {
    u in s.pc && UntraversedAt(s.pc[u], j.g.down[u], v)
  }

  // ------------------------------------------------------------ the groups

  ghost predicate LocalOk(j: Job, s: State, n: NodeId)
    requires Shape(j, s) && n in s.pc
  {
    var st := s.nodeState[n];
    match s.pc[n]
    case Absent => st.Pending? || st.Running? || st.Cancelled?
    case Queued => st.Running?
    case Attempting(k) =>
      && st.Running? && j.spec[n].creates && k <= MaxAttempts(j.spec[n].maxRetries)
      && (forall a: nat :: a < k ==> AttemptResult(j.spec[n].body, a).NodeError?)
    case Storing(ok) => st.Running? && (ok <==> OwnSuccess(j, n))
    case Recording(ok) => st == (if ok then Success else Failed) && (ok <==> OwnSuccess(j, n))
    case Counting(ok) => st == (if ok then Success else Failed) && (ok <==> OwnSuccess(j, n))
    case Finished(ok) => st == (if ok then Success else Failed) && (ok <==> OwnSuccess(j, n))
    case Decrementing(_) => st.Success? && OwnSuccess(j, n)
    case Claiming(_) => st.Success? && OwnSuccess(j, n)
    case Enqueueing(_) => st.Success? && OwnSuccess(j, n)
    case Cancelling(_, _) => st.Failed? && !OwnSuccess(j, n)
    case RecordingCancel(_, _, _) => st.Failed? && !OwnSuccess(j, n)
    case CountingCancel(_, _, _) => st.Failed? && !OwnSuccess(j, n)
  }

  /** Each worker's position agrees with its node's state and with the node's own outcome. */
  ghost predicate LocalInv(j: Job, s: State)
    requires Shape(j, s)
  {
    forall n {:trigger LocalOk(j, s, n)} :: n in s.pc ==> LocalOk(j, s, n)
  }

  /** A node is claimed only when all its dependencies have succeeded. */
  ghost predicate CauseInv(j: Job, s: State)
    requires Shape(j, s)
  {
    forall n {:trigger DepsSucceeded(j, s, n)} :: n in s.pc && Claimed(s.nodeState[n]) ==> DepsSucceeded(j, s, n)
  }

  /** A node is cancelled, or put on a canceller's stack, only when one of its
      dependencies is broken. */
  ghost predicate DoomInv(j: Job, s: State)
    requires Shape(j, s)
  {
    && (forall n {:trigger Doomed(j, s, n)} :: n in s.pc && s.nodeState[n].Cancelled? ==> Doomed(j, s, n))
    && (forall w, v {:trigger OnStack(s, w, v)} :: OnStack(s, w, v) ==> Doomed(j, s, v))
  }

  /** A cancelled node is held by at most one canceller. */
  ghost predicate HoldInv(s: State) {
    && (forall w, v {:trigger Holds(s, w, v)} :: Holds(s, w, v) ==> v in s.nodeState && s.nodeState[v].Cancelled?)
    && (forall w, w', v {:trigger Holds(s, w, v), Holds(s, w', v)} :: Holds(s, w, v) && Holds(s, w', v) ==> w == w')
  }

  /** Every counter is the number of entries still to be decremented, with multiplicity. */
  ghost predicate CounterInv(j: Job, s: State)
    requires Shape(j, s)
  {
    forall v {:trigger Remaining(j, s.pc, v)} :: v in s.pc ==> s.left[v] == |Remaining(j, s.pc, v)|
  }

  /** A claimed node's counter is 0.  A claim under way is unique and is on a Pending node
      whose counter is 0, so the CAS of `scheduleNode` succeeds. */
  ghost predicate ClaimInv(j: Job, s: State)
    requires Shape(j, s)
  {
    && (forall w, v {:trigger Claims(j, s, w, v)} :: Claims(j, s, w, v) ==> s.left[v] == 0 && s.nodeState[v].Pending?)
    && (forall w, w', v {:trigger Claims(j, s, w, v), Claims(j, s, w', v)} ::
          Claims(j, s, w, v) && Claims(j, s, w', v) ==> w == w')
    && (forall v {:trigger s.left[v]} :: v in s.pc && Claimed(s.nodeState[v]) ==> s.left[v] == 0)
  }

  /** A node about to be enqueued is Running, is not in the pool yet and has one enqueuer. */
  ghost predicate EnqueueInv(j: Job, s: State)
    requires Shape(j, s)
  {
    && (forall w, v {:trigger Enqueues(j, s, w, v)} ::
          Enqueues(j, s, w, v) ==> s.nodeState[v].Running? && s.pc[v].Absent?)
    && (forall w, w', v {:trigger Enqueues(j, s, w, v), Enqueues(j, s, w', v)} ::
          Enqueues(j, s, w, v) && Enqueues(j, s, w', v) ==> w == w')
  }

  ghost predicate Root(j: Job, v: NodeId)
    requires v in j.g.deps
  {
    j.g.deps[v] == []
  }

  /** The root nodes the main thread has not reached are untouched. */
  ghost predicate ScanInv(j: Job, s: State)
    requires Shape(j, s)
  {
    && (s.main.EnqueueingRoot? ==>
          var r := j.g.nodes[s.main.i]; s.nodeState[r].Running? && s.pc[r].Absent? && Root(j, r))
    && (forall k {:trigger j.g.nodes[k]} :: 0 <= k < |j.g.nodes| && AheadOfScan(s, k) && Root(j, j.g.nodes[k]) ==>
          s.nodeState[j.g.nodes[k]].Pending? && s.pc[j.g.nodes[k]].Absent?)
  }

  /** Nothing is forgotten: a ready node has a claimer, a claimed node a worker or an
      enqueuer, and every downstream entry of a broken node is dealt with or in hand. */
  ghost predicate Claimable(j: Job, s: State, v: NodeId)
    requires Shape(j, s) && v in s.pc
  {
    || (exists w :: Claims(j, s, w, v))
    || (Root(j, v) && exists k :: 0 <= k < |j.g.nodes| && j.g.nodes[k] == v && AheadOfScan(s, k))
  }

  ghost predicate BeingEnqueued(j: Job, s: State, v: NodeId)
    requires Shape(j, s)
  {
    MainEnqueues(j, s, v) || exists w :: Enqueues(j, s, w, v)
  }

  ghost predicate Covered(j: Job, s: State, u: NodeId, v: NodeId)
    requires Shape(j, s) && v in s.pc
  {
    || !s.nodeState[v].Pending?
    || InOwnLoop(j, s, u, v)
    || (exists w :: OnStack(s, w, v))
    || Held(s, u)
  }

  ghost predicate ReadyInv(j: Job, s: State)
    requires Shape(j, s)
  {
    forall v {:trigger Claimable(j, s, v)} ::
      v in s.pc && s.nodeState[v].Pending? && s.left[v] == 0 ==> Claimable(j, s, v)
  }

  ghost predicate RunningInv(j: Job, s: State)
    requires Shape(j, s)
  {
    forall v {:trigger BeingEnqueued(j, s, v)} ::
      v in s.pc && s.nodeState[v].Running? && s.pc[v].Absent? ==> BeingEnqueued(j, s, v)
  }

  ghost predicate ClosureInv(j: Job, s: State)
    requires Shape(j, s)
  {
    forall u, v {:trigger Covered(j, s, u, v)} ::
      u in s.pc && v in s.pc && v in j.g.down[u] && Broken(s.nodeState[u]) ==> Covered(j, s, u, v)
  }

  ghost predicate Held(s: State, v: NodeId) {
    exists w :: Holds(s, w, v)
  }

  ghost predicate HeldUnrecorded(s: State, v: NodeId) {
    exists w :: Holds(s, w, v) && s.pc[w].RecordingCancel?
  }

  /** Nodes whose metric has not been recorded, and nodes that have not counted down. */
  ghost predicate Unrecorded(s: State, v: NodeId) {
    && v in s.nodeState && v in s.pc
    && (|| s.nodeState[v].Pending? || s.nodeState[v].Running? || s.pc[v].Recording?
        || HeldUnrecorded(s, v))
  }

  ghost predicate Uncounted(s: State, v: NodeId) {
    && v in s.nodeState && v in s.pc
    && (|| s.nodeState[v].Pending? || s.nodeState[v].Running? || s.pc[v].Recording? || s.pc[v].Counting?
        || Held(s, v))
  }

  ghost function UncountedSet(s: State): set<NodeId> {
    set v | v in s.pc && Uncounted(s, v)
  }

  ghost function RecordedAs(s: State, st: NodeState): set<NodeId> {
    set v | v in s.pc && v in s.nodeState && s.nodeState[v] == st && !Unrecorded(s, v)
  }

  /** The latch is the number of nodes that have still to count down, and each metric has
      grown by the number of recorded nodes in that state. */
  ghost predicate LatchInv(j: Job, s: State)
    requires Shape(j, s)
  {
    && s.latch == |UncountedSet(s)|
    && s.metrics.success == j.base.success + |RecordedAs(s, Success)|
    && s.metrics.failed == j.base.failed + |RecordedAs(s, Failed)|
    && s.metrics.cancelled == j.base.cancelled + |RecordedAs(s, Cancelled)|
  }

  ghost predicate Inv(j: Job, s: State) {
    && ValidJob(j)
    && Shape(j, s)
    && !s.main.Resetting?
    && LocalInv(j, s)
    && CauseInv(j, s)
    && DoomInv(j, s)
    && HoldInv(s)
    && CounterInv(j, s)
    && ClaimInv(j, s)
    && EnqueueInv(j, s)
    && ScanInv(j, s)
    && ReadyInv(j, s)
    && RunningInv(j, s)
    && ClosureInv(j, s)
    && LatchInv(j, s)
  }
}
