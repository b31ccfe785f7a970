/** The scheduler as a concurrent protocol.  The main thread runs `run` and
    `waitForCompletion`; every enqueued task is a worker running `executeNode`.  A node is
    enqueued at most once per run, so a worker is named by its node.  One step is one
    atomic operation on shared state (CAS, fetch_sub, store, count_down, counter add,
    enqueue), with the purely local work around it; steps interleave arbitrarily. */
module SchedulerModel {
  import opened DependencyGraph
  import opened NodeExecution

  /** `creates` says whether the registry's factory for the node's type delivers. */
  datatype NodeSpec = NodeSpec(creates: bool, body: Instance, maxRetries: int)

  datatype Metrics = Metrics(success: nat, failed: nat, cancelled: nat)

  /** What is fixed during one run; `base` is the metrics' value when it started. */
  datatype Job = Job(g: Graph, spec: map<NodeId, NodeSpec>, base: Metrics)

  /** Where a worker stands in `executeNode`.  `i` counts the entries of its node's
      downstream list already taken up; `stack` and `v` are the locals of
      `cancelNodeAndDownstream`. */
  datatype Pc =
    | Absent
    | Queued
    | Attempting(k: nat)
    | Storing(ok: bool)
    | Recording(ok: bool)
    | Counting(ok: bool)
    | Decrementing(i: nat)
    | Claiming(i: nat)
    | Enqueueing(i: nat)
    | Cancelling(i: nat, stack: seq<NodeId>)
    | RecordingCancel(i: nat, stack: seq<NodeId>, v: NodeId)
    | CountingCancel(i: nat, stack: seq<NodeId>, v: NodeId)
    | Finished(ok: bool)

  /** Where the main thread stands in `run` and `waitForCompletion`. */
  datatype MainPc =
    | Idle
    | Resetting(i: nat)
    | Scanning(i: nat)
    | EnqueueingRoot(i: nat)
    | Waiting

  datatype State = State(nodeState: map<NodeId, NodeState>,
                         left: map<NodeId, int>,
                         latch: int,
                         metrics: Metrics,
                         running: bool,
                         main: MainPc,
                         pc: map<NodeId, Pc>)

  datatype Actor = Main | Worker(n: NodeId)

  ghost predicate ValidJob(j: Job) {
    && WellFormed(j.g)
    && Acyclic(j.g)
    && |j.g.nodes| > 0
    && (forall n :: n in j.spec <==> n in j.g.nodes)
  }

  /** The node's own work succeeds: it can be created and some attempt succeeds. */
  ghost predicate OwnSuccess(j: Job, n: NodeId)
    requires n in j.spec
  {
    j.spec[n].creates && Succeeds(j.spec[n].body, j.spec[n].maxRetries)
  }

  ghost predicate PcInRange(j: Job, n: NodeId, pc: Pc)
    requires n in j.g.down
  {
    match pc
    case Decrementing(i) => i <= |j.g.down[n]|
    case Claiming(i) => i < |j.g.down[n]|
    case Enqueueing(i) => i < |j.g.down[n]|
    case Cancelling(i, stack) => i <= |j.g.down[n]| && (forall x :: x in stack ==> x in j.g.down)
    case RecordingCancel(i, stack, v) =>
      i <= |j.g.down[n]| && (forall x :: x in stack ==> x in j.g.down) && v in j.g.down
    case CountingCancel(i, stack, v) =>
      i <= |j.g.down[n]| && (forall x :: x in stack ==> x in j.g.down) && v in j.g.down
    case _ => true
  }

  ghost predicate MainInRange(j: Job, m: MainPc) {
    match m
    case Resetting(i) => i <= |j.g.nodes|
    case Scanning(i) => i <= |j.g.nodes|
    case EnqueueingRoot(i) => i < |j.g.nodes|
    case _ => true
  }

  /** The tables of the job cover the same nodes. */
  ghost predicate JobTables(j: Job) {
    && j.spec.Keys == j.g.down.Keys
    && j.g.deps.Keys == j.g.down.Keys
    && (forall i :: 0 <= i < |j.g.nodes| ==> j.g.nodes[i] in j.g.down)
    && (forall u, i :: u in j.g.down && 0 <= i < |j.g.down[u]| ==> j.g.down[u][i] in j.g.down)
  }

  /** Every table of the state has one entry per node and every local index is in range. */
  ghost predicate Shape(j: Job, s: State) {
    && JobTables(j)
    && s.nodeState.Keys == j.g.down.Keys
    && s.left.Keys == j.g.down.Keys
    && s.pc.Keys == j.g.down.Keys
    && MainInRange(j, s.main)
    && (forall n :: n in s.pc ==> PcInRange(j, n, s.pc[n]))
  }

  // ---------------------------------------------------------------- worker steps

  function SetPc(s: State, n: NodeId, pc: Pc): State {
    s.(pc := s.pc[n := pc])
  }

  /** The task starts: the registry either delivers an instance or the node fails. */
  function StartTask(j: Job, s: State, n: NodeId): State
    requires n in j.spec
  {
    SetPc(s, n, if j.spec[n].creates then Attempting(0) else Storing(false))
  }

  /** One turn of the retry loop. */
  function Attempt1(j: Job, s: State, n: NodeId, k: nat): State
    requires n in j.spec
  {
    SetPc(s, n,
          if k >= MaxAttempts(j.spec[n].maxRetries) then Storing(false)
          else if AttemptResult(j.spec[n].body, k).Done? then Storing(true)
          else Attempting(k + 1))
  }

  function StoreOutcome(s: State, n: NodeId, ok: bool): State {
    SetPc(s.(nodeState := s.nodeState[n := if ok then Success else Failed]), n, Recording(ok))
  }

  function RecordOutcome(s: State, n: NodeId, ok: bool): State {
    var m := if ok then s.metrics.(success := s.metrics.success + 1)
             else s.metrics.(failed := s.metrics.failed + 1);
    SetPc(s.(metrics := m), n, Counting(ok))
  }

  function CountOutcome(s: State, n: NodeId, ok: bool): State {
    SetPc(s.(latch := s.latch - 1), n, if ok then Decrementing(0) else Cancelling(0, []))
  }

  /** fetch_sub on the next downstream counter; the old value 1 makes this worker the
      one that schedules the node. */
  function Decrement(j: Job, s: State, n: NodeId, i: nat): State
    requires n in j.g.down && i <= |j.g.down[n]|
    requires i < |j.g.down[n]| ==> j.g.down[n][i] in s.left
  {
    if i == |j.g.down[n]| then SetPc(s, n, Finished(true))
    else
      var v := j.g.down[n][i];
      SetPc(s.(left := s.left[v := s.left[v] - 1]), n,
            if s.left[v] == 1 then Claiming(i) else Decrementing(i + 1))
  }

  /** The CAS of `scheduleNode`. */
  function Claim(j: Job, s: State, n: NodeId, i: nat): State
    requires n in j.g.down && i < |j.g.down[n]|
    requires j.g.down[n][i] in s.nodeState
  {
    var v := j.g.down[n][i];
    if s.nodeState[v].Pending?
    then SetPc(s.(nodeState := s.nodeState[v := Running]), n, Enqueueing(i))
    else SetPc(s, n, Decrementing(i + 1))
  }

  function Enqueue(j: Job, s: State, n: NodeId, i: nat): State
    requires n in j.g.down && i < |j.g.down[n]|
  {
    s.(pc := s.pc[j.g.down[n][i] := Queued][n := Decrementing(i + 1)])
  }

  /** One turn of `cancelNodeAndDownstream`: pop and CAS; with an empty stack the worker
      takes up its next downstream entry. */
  function Cancel(j: Job, s: State, n: NodeId, i: nat, stack: seq<NodeId>): State
    requires n in j.g.down && i <= |j.g.down[n]|
    requires stack != [] ==> stack[|stack| - 1] in s.nodeState
  {
    if stack == [] then
      SetPc(s, n, if i == |j.g.down[n]| then Finished(false) else Cancelling(i + 1, [j.g.down[n][i]]))
    else
      var v := stack[|stack| - 1];
      var rest := stack[..|stack| - 1];
      if s.nodeState[v].Pending?
      then SetPc(s.(nodeState := s.nodeState[v := Cancelled]), n, RecordingCancel(i, rest, v))
      else SetPc(s, n, Cancelling(i, rest))
  }

  function RecordCancel(s: State, n: NodeId, i: nat, stack: seq<NodeId>, v: NodeId): State {
    SetPc(s.(metrics := s.metrics.(cancelled := s.metrics.cancelled + 1)), n, CountingCancel(i, stack, v))
  }

  function CountCancel(j: Job, s: State, n: NodeId, i: nat, stack: seq<NodeId>, v: NodeId): State
    requires v in j.g.down
  {
    SetPc(s.(latch := s.latch - 1), n, Cancelling(i, stack + j.g.down[v]))
  }

  predicate WorkerEnabled(s: State, n: NodeId) {
    n in s.pc && !s.pc[n].Absent? && !s.pc[n].Finished?
  }

  function WorkerStep(j: Job, s: State, n: NodeId): State
    requires Shape(j, s) && WorkerEnabled(s, n)
  {
    match s.pc[n]
    case Queued => StartTask(j, s, n)
    case Attempting(k) => Attempt1(j, s, n, k)
    case Storing(ok) => StoreOutcome(s, n, ok)
    case Recording(ok) => RecordOutcome(s, n, ok)
    case Counting(ok) => CountOutcome(s, n, ok)
    case Decrementing(i) => Decrement(j, s, n, i)
    case Claiming(i) => Claim(j, s, n, i)
    case Enqueueing(i) => Enqueue(j, s, n, i)
    case Cancelling(i, stack) => Cancel(j, s, n, i, stack)
    case RecordingCancel(i, stack, v) => RecordCancel(s, n, i, stack, v)
    case CountingCancel(i, stack, v) => CountCancel(j, s, n, i, stack, v)
  }

  // ---------------------------------------------------------------- main thread

  /** `run` up to the creation of the latch.  No handler of an earlier run may be in
      flight; the pool of the new run is empty. */
  function StartRun(j: Job, s: State): State {
    s.(running := true, latch := |j.g.nodes|, main := Resetting(0),
       pc := map n | n in s.pc :: Absent)
  }

  /** The stores that reset one node. */
  function ResetNode(j: Job, s: State, i: nat): State
    requires i < |j.g.nodes| && j.g.nodes[i] in j.g.deps
  {
    var n := j.g.nodes[i];
    s.(left := s.left[n := |j.g.deps[n]|], nodeState := s.nodeState[n := Pending], main := Resetting(i + 1))
  }

  /** One turn of the loop over the root nodes, up to and including the CAS. */
  function ScanRoot(j: Job, s: State, i: nat): State
    requires i < |j.g.nodes| && j.g.nodes[i] in j.g.deps && j.g.nodes[i] in s.nodeState
  {
    var n := j.g.nodes[i];
    if j.g.deps[n] == [] && s.nodeState[n].Pending?
    then s.(nodeState := s.nodeState[n := Running], main := EnqueueingRoot(i))
    else s.(main := Scanning(i + 1))
  }

  function EnqueueRoot(j: Job, s: State, i: nat): State
    requires i < |j.g.nodes|
  {
    s.(pc := s.pc[j.g.nodes[i] := Queued], main := Scanning(i + 1))
  }

  predicate MainEnabled(s: State) {
    !s.main.Idle? && (s.main.Waiting? ==> s.latch == 0)
  }

  lemma ValidJobTables(j: Job)
    requires ValidJob(j)
    ensures JobTables(j)
  {
    forall u, i | u in j.g.down && 0 <= i < |j.g.down[u]| ensures j.g.down[u][i] in j.g.down {
      assert j.g.down[u][i] in j.g.deps;
    }
  }

  function MainStep(j: Job, s: State): State
    requires Shape(j, s) && MainEnabled(s)
  {
    match s.main
    case Resetting(i) =>
      if i == |j.g.nodes| then s.(main := Scanning(0)) else ResetNode(j, s, i)
    case Scanning(i) =>
      if i == |j.g.nodes| then s.(main := Waiting) else ScanRoot(j, s, i)
    case EnqueueingRoot(i) => EnqueueRoot(j, s, i)
    case Waiting => s.(running := false, main := Idle)
  }

  predicate Enabled(s: State, a: Actor) {
    match a
    case Main => MainEnabled(s)
    case Worker(n) => WorkerEnabled(s, n)
  }

  function Step(j: Job, s: State, a: Actor): State
    requires Shape(j, s) && Enabled(s, a)
  {
    match a
    case Main => MainStep(j, s)
    case Worker(n) => WorkerStep(j, s, n)
  }
}
