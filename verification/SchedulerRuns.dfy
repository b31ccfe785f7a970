/** Runs of the protocol: every interleaving from the start of `run` keeps the invariant. */
module SchedulerRuns {
  import opened DependencyGraph
  import opened NodeExecution
  import opened SchedulerModel
  import opened SchedulerInvariant
  import opened SchedulerOutcomeSteps
  import opened SchedulerSuccessSteps
  import opened SchedulerCancelSteps
  import opened SchedulerMainSteps

  // ------------------------------------------------------------ one step

  lemma OutcomeKeepsInv(j: Job, s: State, n: NodeId)
    requires Inv(j, s) && WorkerEnabled(s, n)
    requires s.pc[n].Queued? || s.pc[n].Attempting? || s.pc[n].Storing? || s.pc[n].Recording? || s.pc[n].Counting?
    ensures Inv(j, WorkerStep(j, s, n))
  {
    hide LocalInv, CauseInv, DoomInv, HoldInv, CounterInv, ClaimInv, EnqueueInv, ScanInv, ReadyInv, RunningInv,
      ClosureInv, LatchInv, ValidJob, StartTask, Attempt1, StoreOutcome, RecordOutcome, CountOutcome;
    match s.pc[n] {
      case Queued => StartStep(j, s, n);
      case Attempting(k) => AttemptStep(j, s, n, k);
      case Storing(ok) => StoreStep(j, s, n, ok);
      case Recording(ok) => RecordStep(j, s, n, ok);
      case Counting(ok) => CountStep(j, s, n, ok);
    }
  }

  lemma SuccessKeepsInv(j: Job, s: State, n: NodeId)
    requires Inv(j, s) && WorkerEnabled(s, n)
    requires s.pc[n].Decrementing? || s.pc[n].Claiming? || s.pc[n].Enqueueing?
    ensures Inv(j, WorkerStep(j, s, n))
  {
    hide LocalInv, CauseInv, DoomInv, HoldInv, CounterInv, ClaimInv, EnqueueInv, ScanInv, ReadyInv, RunningInv,
      ClosureInv, LatchInv, ValidJob, Claim, Enqueue;
    match s.pc[n] {
      case Decrementing(i) =>
        if i == |j.g.down[n]| { FinishStep(j, s, n, true); } else { DecrementStep(j, s, n, i); }
      case Claiming(i) => ClaimStep(j, s, n, i);
      case Enqueueing(i) => EnqueueStep(j, s, n, i);
    }
  }

  lemma FailureKeepsInv(j: Job, s: State, n: NodeId)
    requires Inv(j, s) && WorkerEnabled(s, n)
    requires s.pc[n].Cancelling? || s.pc[n].RecordingCancel? || s.pc[n].CountingCancel?
    ensures Inv(j, WorkerStep(j, s, n))
  {
    hide LocalInv, CauseInv, DoomInv, HoldInv, CounterInv, ClaimInv, EnqueueInv, ScanInv, ReadyInv, RunningInv,
      ClosureInv, LatchInv, ValidJob;
    match s.pc[n] {
      case Cancelling(i, stack) => CancelKeepsInv(j, s, n, i, stack);
      case RecordingCancel(i, stack, v) =>
        assert AtHold(j, s, n, i, stack, v) by { HoldFinds(j, s, n, i, stack, v); }
        HoldKeepsInv(j, s, RecordCancel(s, n, i, stack, v), n, i, stack, v);
      case CountingCancel(i, stack, v) =>
        assert AtHold(j, s, n, i, stack, v) by { HoldFinds(j, s, n, i, stack, v); }
        HoldKeepsInv(j, s, CountCancel(j, s, n, i, stack, v), n, i, stack, v);
    }
  }

  lemma WorkerKeepsInv(j: Job, s: State, n: NodeId)
    requires Inv(j, s) && WorkerEnabled(s, n)
    ensures Inv(j, WorkerStep(j, s, n))
  {
    hide Inv, WorkerStep;
    match s.pc[n] {
      case Decrementing(_) => SuccessKeepsInv(j, s, n);
      case Claiming(_) => SuccessKeepsInv(j, s, n);
      case Enqueueing(_) => SuccessKeepsInv(j, s, n);
      case Cancelling(_, _) => FailureKeepsInv(j, s, n);
      case RecordingCancel(_, _, _) => FailureKeepsInv(j, s, n);
      case CountingCancel(_, _, _) => FailureKeepsInv(j, s, n);
      case _ => OutcomeKeepsInv(j, s, n);
    }
  }

  lemma CancelKeepsInv(j: Job, s: State, n: NodeId, i: nat, stack: seq<NodeId>)
    requires Inv(j, s) && n in s.pc && s.pc[n] == Cancelling(i, stack)
    requires n in j.g.down && i <= |j.g.down[n]| && (stack != [] ==> stack[|stack| - 1] in s.nodeState)
    ensures Inv(j, Cancel(j, s, n, i, stack))
  {
    hide LocalInv, CauseInv, DoomInv, HoldInv, CounterInv, ClaimInv, EnqueueInv, ScanInv, ReadyInv, RunningInv,
      ClosureInv, LatchInv, ValidJob;
    assert AtCancel(j, s, n, i, stack);
    if stack == [] && i == |j.g.down[n]| {
      FinishStep(j, s, n, false);
    } else if stack != [] && s.nodeState[stack[|stack| - 1]].Pending? {
      CasKeepsInv(j, s, n, i, stack);
    } else {
      SkipKeepsInv(j, s, Cancel(j, s, n, i, stack), n, i, stack);
    }
  }

  lemma ScanSkips(j: Job, s: State)
    requires Shape(j, s) && MainEnabled(s) && !s.main.Resetting? && !s.main.EnqueueingRoot?
    requires s.main.Scanning? && s.main.i < |j.g.nodes| ==> !Root(j, j.g.nodes[s.main.i])
    ensures ScanMove(j, s, MainStep(j, s)) && !MainStep(j, s).main.Resetting?
  {
  }

  lemma MainKeepsInv(j: Job, s: State)
    requires Inv(j, s) && MainEnabled(s)
    ensures Inv(j, MainStep(j, s))
  {
    hide LocalInv, CauseInv, DoomInv, HoldInv, CounterInv, ClaimInv, EnqueueInv, ScanInv, ReadyInv, RunningInv,
      ClosureInv, LatchInv, ValidJob, ScanMove, ScanRoot, EnqueueRoot;
    if s.main.Scanning? && s.main.i < |j.g.nodes| && Root(j, j.g.nodes[s.main.i]) {
      RootStep(j, s, s.main.i);
    } else if s.main.EnqueueingRoot? {
      RootEnqueueStep(j, s, s.main.i);
    } else {
      ScanSkips(j, s);
      ScanMoveKeepsInv(j, s, MainStep(j, s));
    }
  }

  // ------------------------------------------------------------ the reset loop

  /** `run` has reset the first `i` nodes; no worker exists. */
  ghost predicate ResetInv(j: Job, s: State) {
    && ValidJob(j) && Shape(j, s) && s.main.Resetting?
    && s.latch == |j.g.nodes| && s.metrics == j.base
    && (forall n :: n in s.pc ==> s.pc[n].Absent?)
    && (forall k {:trigger j.g.nodes[k]} :: 0 <= k < s.main.i ==>
          s.nodeState[j.g.nodes[k]].Pending? && s.left[j.g.nodes[k]] == |j.g.deps[j.g.nodes[k]]|)
  }

  lemma ResetShape(j: Job, s: State)
    requires Shape(j, s) && s.main.Resetting? && s.main.i < |j.g.nodes| && j.g.nodes[s.main.i] in j.g.deps
    ensures Shape(j, ResetNode(j, s, s.main.i))
  {
    hide PcInRange;
  }

  lemma ResetStep(j: Job, s: State)
    requires ResetInv(j, s) && s.main.i < |j.g.nodes| && j.g.nodes[s.main.i] in j.g.deps
    ensures ResetInv(j, ResetNode(j, s, s.main.i))
  {
    hide ValidJob, Shape;
    ResetShape(j, s);
  }

  lemma NodeCount(j: Job, s: set<NodeId>)
    requires Distinct(j.g.nodes) && forall n :: n in s <==> n in j.g.nodes
    ensures |s| == |j.g.nodes|
  {
    DistinctCount(j.g.nodes, s);
  }

  lemma {:induction false} DistinctCount<T>(q: seq<T>, s: set<T>)
    requires Distinct(q) && forall n :: n in s <==> n in q
    ensures |s| == |q|
  {
    if q == [] {
      assert s == {};
    } else {
      assert q == [q[0]] + q[1..];
      DistinctCount(q[1..], s - {q[0]});
    }
  }

  /** All nodes reset, nobody scheduled: the state the root scan starts from. */
  ghost predicate Fresh(j: Job, s: State)
    requires Shape(j, s)
  {
    && s.main == Scanning(0) && s.latch == |j.g.nodes| && s.metrics == j.base
    && (forall n :: n in s.pc ==> s.pc[n].Absent? && s.nodeState[n].Pending? && s.left[n] == |j.g.deps[n]|)
  }

  lemma NodesAreTable(j: Job, s: State)
    requires ValidJob(j) && Shape(j, s)
    ensures Distinct(j.g.nodes) && forall n :: n in s.pc <==> n in j.g.nodes
  {
    hide PcInRange, Entries, Acyclic;
  }

  lemma FreshCounts(j: Job, s: State)
    requires ValidJob(j) && Shape(j, s) && Fresh(j, s)
    ensures CounterInv(j, s) && LatchInv(j, s)
  {
    hide Uncounted, Unrecorded, Remaining, CounterInv, Shape, ValidJob;
    FreshCounters(j, s);
    FreshStages(j, s);
    NodesAreTable(j, s);
    assert UncountedSet(s) == s.pc.Keys;
    NodeCount(j, UncountedSet(s));
    assert RecordedAs(s, Success) == {} && RecordedAs(s, Failed) == {} && RecordedAs(s, Cancelled) == {};
  }

  lemma FreshStages(j: Job, s: State)
    requires Shape(j, s) && Fresh(j, s)
    ensures forall v :: v in s.pc ==> Uncounted(s, v) && Unrecorded(s, v)
  {
  }

  lemma FreshCounters(j: Job, s: State)
    requires ValidJob(j) && Shape(j, s) && Fresh(j, s)
    ensures CounterInv(j, s)
  {
    hide PcInRange, Acyclic;
    forall v | v in s.pc ensures s.left[v] == |Remaining(j, s.pc, v)| {
      assert Remaining(j, s.pc, v) == Entries(j.g.down, v);
    }
  }

  lemma FreshReady(j: Job, s: State)
    requires ValidJob(j) && Shape(j, s) && Fresh(j, s)
    ensures ReadyInv(j, s)
  {
    forall v | v in s.pc && s.left[v] == 0 ensures Claimable(j, s, v) {
      var k :| 0 <= k < |j.g.nodes| && j.g.nodes[k] == v;
      assert AheadOfScan(s, k);
    }
  }

  lemma FreshClaims(j: Job, s: State)
    requires Shape(j, s) && Fresh(j, s)
    ensures ClaimInv(j, s) && EnqueueInv(j, s) && ScanInv(j, s) && RunningInv(j, s)
  {
  }

  lemma FreshCancels(j: Job, s: State)
    requires Shape(j, s) && Fresh(j, s)
    ensures LocalInv(j, s) && CauseInv(j, s) && DoomInv(j, s) && HoldInv(s) && ClosureInv(j, s)
  {
  }

  lemma FreshInv(j: Job, s: State)
    requires ValidJob(j) && Shape(j, s) && Fresh(j, s)
    ensures Inv(j, s)
  {
    hide LocalInv, CauseInv, DoomInv, HoldInv, CounterInv, ClaimInv, EnqueueInv, ScanInv, ReadyInv, RunningInv,
      ClosureInv, LatchInv;
    FreshCounts(j, s);
    FreshReady(j, s);
    FreshClaims(j, s);
    FreshCancels(j, s);
  }

  lemma ResetDone(j: Job, s: State)
    requires ResetInv(j, s) && s.main.i == |j.g.nodes|
    ensures Inv(j, s.(main := Scanning(0)))
  {
    hide ValidJob, Inv, PcInRange;
    var s' := s.(main := Scanning(0));
    NodesAreTable(j, s);
    forall n | n in s'.pc ensures s'.nodeState[n].Pending? && s'.left[n] == |j.g.deps[n]| {
      var k :| 0 <= k < |j.g.nodes| && j.g.nodes[k] == n;
    }
    assert Shape(j, s');
    FreshInv(j, s');
  }

  /** What holds in every state of a run. */
  ghost predicate RunInv(j: Job, s: State) {
    ResetInv(j, s) || Inv(j, s)
  }

  lemma StepKeepsRunInv(j: Job, s: State, a: Actor)
    requires RunInv(j, s) && Shape(j, s) && Enabled(s, a)
    ensures RunInv(j, Step(j, s, a)) && Shape(j, Step(j, s, a))
  {
    if ResetInv(j, s) {
      assert a == Main;
      if s.main.i < |j.g.nodes| {
        ResetStep(j, s);
      } else {
        ResetDone(j, s);
      }
    } else {
      hide ResetInv, LocalInv, CauseInv, DoomInv, HoldInv, CounterInv, ClaimInv, EnqueueInv, ScanInv, ReadyInv,
        RunningInv, ClosureInv, LatchInv, WorkerStep, MainStep;
      match a {
        case Main => MainKeepsInv(j, s);
        case Worker(n) => WorkerKeepsInv(j, s, n);
      }
    }
  }

  // ------------------------------------------------------------ runs

  /** The engine between runs: nothing in flight. */
  ghost predicate Quiescent(j: Job, s: State) {
    && s.nodeState.Keys == j.g.down.Keys && s.left.Keys == j.g.down.Keys && s.pc.Keys == j.g.down.Keys
    && s.main.Idle? && !s.running
    && (forall n :: n in s.pc ==> s.pc[n].Absent? || s.pc[n].Finished?)
  }

  ghost predicate Next(j: Job, s: State, s': State) {
    Shape(j, s) && exists a :: Enabled(s, a) && s' == Step(j, s, a)
  }

  /** A run: `run` is called on a quiescent engine, whatever the last run left in the
      tables, and then any actors take any steps in any order. */
  ghost predicate IsRun(j: Job, before: State, t: seq<State>) {
    && ValidJob(j) && Quiescent(j, before) && before.metrics == j.base
    && |t| > 0 && t[0] == StartRun(j, before)
    && (forall i, k {:trigger t[i], t[k]} :: 0 <= i && k == i + 1 && k < |t| ==> Next(j, t[i], t[k]))
  }

  lemma StartResets(j: Job, before: State)
    requires ValidJob(j) && Quiescent(j, before) && before.metrics == j.base
    ensures ResetInv(j, StartRun(j, before))
  {
    ValidJobTables(j);
  }

  lemma NextKeepsRunInv(j: Job, s: State, s': State)
    requires RunInv(j, s) && Next(j, s, s')
    ensures RunInv(j, s') && Shape(j, s')
  {
    hide RunInv, Shape;
    var a :| Enabled(s, a) && s' == Step(j, s, a);
    StepKeepsRunInv(j, s, a);
  }

  lemma {:induction false} RunKeepsInv(j: Job, before: State, t: seq<State>)
    requires IsRun(j, before, t)
    ensures Shape(j, t[|t| - 1]) && RunInv(j, t[|t| - 1])
  {
    hide RunInv, Next, Shape, StartRun, Quiescent, ValidJob;
    if |t| == 1 {
      StartResets(j, before);
      assert RunInv(j, t[0]) && Shape(j, t[0]) by { ResetIsRun(j, t[0]); }
    } else {
      var r := t[..|t| - 1];
      RunKeepsInv(j, before, r);
      NextKeepsRunInv(j, t[|t| - 2], t[|t| - 1]);
    }
  }

  lemma ResetIsRun(j: Job, s: State)
    requires ResetInv(j, s)
    ensures RunInv(j, s) && Shape(j, s)
  {
  }

  /** A state some run can be in. */
  ghost predicate Reachable(j: Job, s: State) {
    exists before, t :: IsRun(j, before, t) && s == t[|t| - 1]
  }

  lemma ReachableInv(j: Job, s: State)
    requires Reachable(j, s)
    ensures Shape(j, s) && RunInv(j, s)
  {
    hide RunInv;
    var before, t :| IsRun(j, before, t) && s == t[|t| - 1];
    RunKeepsInv(j, before, t);
  }

  lemma MainKeepsFlag(j: Job, s: State)
    requires Shape(j, s) && MainEnabled(s) && (s.main.Idle? <==> !s.running)
    ensures MainStep(j, s).main.Idle? <==> !MainStep(j, s).running
  {
    hide PcInRange;
  }

  lemma WorkerKeepsFlag(j: Job, s: State, n: NodeId)
    requires Shape(j, s) && WorkerEnabled(s, n)
    ensures WorkerStep(j, s, n).main == s.main && WorkerStep(j, s, n).running == s.running
  {
    hide PcInRange, AttemptResult, MaxAttempts;
  }

  /** The `running` flag is set exactly while the main thread is inside a run. */
  lemma NextKeepsFlag(j: Job, s: State, s': State)
    requires Next(j, s, s') && (s.main.Idle? <==> !s.running)
    ensures s'.main.Idle? <==> !s'.running
  {
    hide Shape, MainStep, WorkerStep;
    var a :| Enabled(s, a) && s' == Step(j, s, a);
    match a {
      case Main => MainKeepsFlag(j, s);
      case Worker(n) => WorkerKeepsFlag(j, s, n);
    }
  }

  lemma {:induction false} RunKeepsFlag(j: Job, before: State, t: seq<State>)
    requires IsRun(j, before, t)
    ensures t[|t| - 1].main.Idle? <==> !t[|t| - 1].running
  {
    hide Next, ValidJob;
    if |t| > 1 {
      RunKeepsFlag(j, before, t[..|t| - 1]);
      NextKeepsFlag(j, t[|t| - 2], t[|t| - 1]);
    }
  }

  lemma ReachableFlag(j: Job, s: State)
    requires Reachable(j, s)
    ensures s.main.Idle? <==> !s.running
  {
    var before, t :| IsRun(j, before, t) && s == t[|t| - 1];
    hide IsRun;
    RunKeepsFlag(j, before, t);
  }
}
