/** A measure that falls on every step of every actor: each run is finite, and its length
    is bounded by the size of the graph and the retry budgets. */
module SchedulerTermination {
  import opened DependencyGraph
  import opened NodeExecution
  import opened SchedulerModel
  import opened SchedulerInvariant
  import opened SchedulerOutcomeSteps
  import opened SchedulerSuccessSteps
  import opened SchedulerCancelSteps
  import opened SchedulerMainSteps
  import opened SchedulerRuns

  // ------------------------------------------------------------ weights

  function Sum(q: seq<NodeId>, w: map<NodeId, nat>): nat {
    if q == [] then 0 else (if q[0] in w then w[q[0]] else 0) + Sum(q[1..], w)
  }

  lemma {:induction false} SumElsewhere(q: seq<NodeId>, w: map<NodeId, nat>, n: NodeId, x: nat)
    requires n !in q
    ensures Sum(q, w[n := x]) == Sum(q, w)
  {
    if q != [] {
      assert q == [q[0]] + q[1..];
      SumElsewhere(q[1..], w, n, x);
    }
  }

  lemma {:induction false} SumUpdate(q: seq<NodeId>, w: map<NodeId, nat>, n: NodeId, x: nat)
    requires Distinct(q) && n in q && n in w
    ensures Sum(q, w[n := x]) + w[n] == Sum(q, w) + x
  {
    assert q == [q[0]] + q[1..];
    if q[0] == n {
      assert n !in q[1..];
      SumElsewhere(q[1..], w, n, x);
    } else {
      assert n in q[1..];
      SumUpdate(q[1..], w, n, x);
    }
  }

  function TriesLeft(j: Job, n: NodeId, k: nat): nat
    requires n in j.spec
  {
    if k <= MaxAttempts(j.spec[n].maxRetries) then MaxAttempts(j.spec[n].maxRetries) - k else 0
  }

  /** Steps a worker still has to make, at most, if it cancels nothing more. */
  ghost function PcWeight(j: Job, n: NodeId, pc: Pc): nat
    requires JobTables(j) && n in j.g.down && PcInRange(j, n, pc)
  {
    var d := |j.g.down[n]|;
    match pc
    case Finished(_) => 0
    case Decrementing(i) => 3 * (d - i) + 1
    case Claiming(i) => 3 * (d - i)
    case Enqueueing(i) => 3 * (d - i) - 1
    case Cancelling(i, stack) => 2 * (d - i) + |stack| + 1
    case RecordingCancel(i, stack, v) => 2 * (d - i) + |stack| + |j.g.down[v]| + 3
    case CountingCancel(i, stack, v) => 2 * (d - i) + |stack| + |j.g.down[v]| + 2
    case Counting(_) => 3 * d + 2
    case Recording(_) => 3 * d + 3
    case Storing(_) => 3 * d + 4
    case Attempting(k) => 3 * d + 5 + TriesLeft(j, n, k)
    case Queued => 3 * d + 6 + TriesLeft(j, n, 0)
    case Absent => 3 * d + 7 + TriesLeft(j, n, 0)
  }

  /** A Pending node may still be cancelled: its downstream entries get pushed then. */
  ghost function Weight(j: Job, n: NodeId, st: NodeState, pc: Pc): nat
    requires JobTables(j) && n in j.g.down && PcInRange(j, n, pc)
  {
    PcWeight(j, n, pc) + if st.Pending? then |j.g.down[n]| + 3 else 0
  }

  ghost function Weights(j: Job, s: State): map<NodeId, nat>
    requires Shape(j, s)
  {
    map n | n in s.pc :: Weight(j, n, s.nodeState[n], s.pc[n])
  }

  ghost function FreshWeights(j: Job): map<NodeId, nat>
    requires JobTables(j)
  {
    map n | n in j.g.down :: Weight(j, n, Pending, Absent)
  }

  ghost function MainWeight(j: Job, m: MainPc): nat
    requires MainInRange(j, m)
  {
    match m
    case Scanning(i) => 2 * (|j.g.nodes| - i) + 2
    case EnqueueingRoot(i) => 2 * (|j.g.nodes| - i) + 1
    case Waiting => 1
    case _ => 0
  }

  /** The longest a run can be from the start of the root scan. */
  ghost function ScanBound(j: Job): nat
    requires JobTables(j)
  {
    Sum(j.g.nodes, FreshWeights(j)) + 2 * |j.g.nodes| + 2
  }

  ghost function Measure(j: Job, s: State): nat
    requires Shape(j, s)
  {
    if s.main.Resetting?
    then ScanBound(j) + |j.g.nodes| - s.main.i + 1
    else Sum(j.g.nodes, Weights(j, s)) + MainWeight(j, s.main)
  }

  // ------------------------------------------------------------ the measure falls

  /** Two maps that agree except at one or two nodes. */
  lemma SumChange(q: seq<NodeId>, w: map<NodeId, nat>, w': map<NodeId, nat>, n: NodeId, v: NodeId)
    requires Distinct(q) && n in q && v in q && n in w && v in w && w'.Keys == w.Keys
    requires forall x :: x in w && x != n && x != v ==> w'[x] == w[x]
    ensures Sum(q, w') + w[n] + (if n != v then w[v] else 0) == Sum(q, w) + w'[n] + (if n != v then w'[v] else 0)
  {
    assert w' == w[n := w'[n]][v := w'[v]];
    SumUpdate(q, w, n, w'[n]);
    SumUpdate(q, w[n := w'[n]], v, w'[v]);
  }

  lemma WeightsKeys(j: Job, s: State)
    requires Shape(j, s)
    ensures Weights(j, s).Keys == j.g.down.Keys
    ensures forall x :: x in s.pc ==> x in Weights(j, s) && Weights(j, s)[x] == Weight(j, x, s.nodeState[x], s.pc[x])
  {
    hide Weight;
  }

  lemma TwoChanges(j: Job, s: State, s': State, n: NodeId, v: NodeId)
    requires ValidJob(j) && Shape(j, s) && Shape(j, s') && n in s.pc && v in s.pc && n != v
    requires forall x :: x in s.pc && x != n && x != v ==> s'.pc[x] == s.pc[x] && s'.nodeState[x] == s.nodeState[x]
    ensures Sum(j.g.nodes, Weights(j, s'))
         + Weight(j, n, s.nodeState[n], s.pc[n]) + Weight(j, v, s.nodeState[v], s.pc[v])
         == Sum(j.g.nodes, Weights(j, s))
         + Weight(j, n, s'.nodeState[n], s'.pc[n]) + Weight(j, v, s'.nodeState[v], s'.pc[v])
  {
    WeightsKeys(j, s);
    WeightsKeys(j, s');
    InNodes(j, n);
    InNodes(j, v);
    hide Weights, Weight, ValidJob, Distinct;
    SumChange(j.g.nodes, Weights(j, s), Weights(j, s'), n, v);
  }

  lemma OneChange(j: Job, s: State, s': State, n: NodeId)
    requires ValidJob(j) && Shape(j, s) && Shape(j, s') && n in s.pc
    requires forall x :: x in s.pc && x != n ==> s'.pc[x] == s.pc[x] && s'.nodeState[x] == s.nodeState[x]
    ensures Sum(j.g.nodes, Weights(j, s')) + Weight(j, n, s.nodeState[n], s.pc[n])
         == Sum(j.g.nodes, Weights(j, s)) + Weight(j, n, s'.nodeState[n], s'.pc[n])
  {
    WeightsKeys(j, s);
    WeightsKeys(j, s');
    InNodes(j, n);
    hide Weights, Weight, ValidJob, Distinct;
    SumChange(j.g.nodes, Weights(j, s), Weights(j, s'), n, n);
  }

  lemma InNodes(j: Job, n: NodeId)
    requires ValidJob(j) && n in j.g.down
    ensures n in j.g.nodes && Distinct(j.g.nodes)
  {
  }

  /** Steps that change only the worker's own entries. */
  lemma OutcomeLighter(j: Job, s: State, n: NodeId)
    requires Shape(j, s) && WorkerEnabled(s, n) && LocalOk(j, s, n)
    requires s.pc[n].Queued? || s.pc[n].Attempting? || s.pc[n].Storing? || s.pc[n].Recording? || s.pc[n].Counting?
    requires Shape(j, WorkerStep(j, s, n))
    ensures forall x :: x in s.pc && x != n ==>
              WorkerStep(j, s, n).pc[x] == s.pc[x] && WorkerStep(j, s, n).nodeState[x] == s.nodeState[x]
    ensures PcWeight(j, n, WorkerStep(j, s, n).pc[n]) < PcWeight(j, n, s.pc[n])
    ensures !WorkerStep(j, s, n).nodeState[n].Pending?
  {
    hide Shape, PcInRange, OwnSuccess, AttemptResult, Decrement, Claim, Enqueue, Cancel, RecordCancel, CountCancel;
    InTable(j, s, n);
  }

  lemma InTable(j: Job, s: State, n: NodeId)
    requires Shape(j, s) && n in s.pc
    ensures n in j.g.down && n in s.nodeState && n in s.left && n in j.spec
  {
  }

  lemma DecrementLighter(j: Job, s: State, s': State, n: NodeId, i: nat)
    requires Shape(j, s) && n in s.pc && s.pc[n] == Decrementing(i) && Shape(j, s')
    requires i <= |j.g.down[n]| && (i < |j.g.down[n]| ==> j.g.down[n][i] in s.left) && s' == Decrement(j, s, n, i)
    ensures s'.nodeState == s.nodeState && s'.pc == s.pc[n := s'.pc[n]]
    ensures PcWeight(j, n, s'.pc[n]) < PcWeight(j, n, s.pc[n])
  {
    hide Shape, PcInRange, TriesLeft, MaxAttempts;
    InTable(j, s, n);
    assert s'.pc[n] == if i == |j.g.down[n]| then Finished(true)
                       else if s.left[j.g.down[n][i]] == 1 then Claiming(i)
                       else Decrementing(i + 1);
  }

  lemma HoldLighter(j: Job, s: State, s': State, n: NodeId, i: nat, stack: seq<NodeId>, v: NodeId)
    requires Shape(j, s) && n in s.pc && v in j.g.down && Shape(j, s')
    requires || (s.pc[n] == RecordingCancel(i, stack, v) && s' == RecordCancel(s, n, i, stack, v))
             || (s.pc[n] == CountingCancel(i, stack, v) && s' == CountCancel(j, s, n, i, stack, v))
    ensures s'.nodeState == s.nodeState && s'.pc == s.pc[n := s'.pc[n]]
    ensures PcWeight(j, n, s'.pc[n]) < PcWeight(j, n, s.pc[n])
  {
    hide Shape, PcInRange, TriesLeft, MaxAttempts;
  }

  lemma LoopLighter(j: Job, s: State, n: NodeId)
    requires Shape(j, s) && WorkerEnabled(s, n) && LocalOk(j, s, n)
    requires s.pc[n].Decrementing? || s.pc[n].RecordingCancel? || s.pc[n].CountingCancel?
    requires Shape(j, WorkerStep(j, s, n))
    ensures forall x :: x in s.pc && x != n ==>
              WorkerStep(j, s, n).pc[x] == s.pc[x] && WorkerStep(j, s, n).nodeState[x] == s.nodeState[x]
    ensures PcWeight(j, n, WorkerStep(j, s, n).pc[n]) < PcWeight(j, n, s.pc[n])
    ensures !WorkerStep(j, s, n).nodeState[n].Pending?
  {
    hide PcWeight, OwnSuccess, Decrement, RecordCancel, CountCancel, Cancel, Claim, Enqueue;
    var s' := WorkerStep(j, s, n);
    match s.pc[n] {
      case Decrementing(i) => DecrementLighter(j, s, s', n, i);
      case RecordingCancel(i, stack, v) => HoldLighter(j, s, s', n, i, stack, v);
      case CountingCancel(i, stack, v) => HoldLighter(j, s, s', n, i, stack, v);
    }
  }

  lemma OwnStepLighter(j: Job, s: State, n: NodeId)
    requires Shape(j, s) && LocalInv(j, s) && WorkerEnabled(s, n)
    requires !s.pc[n].Claiming? && !s.pc[n].Enqueueing? && !s.pc[n].Cancelling?
    requires Shape(j, WorkerStep(j, s, n))
    ensures forall x :: x in s.pc && x != n ==>
              WorkerStep(j, s, n).pc[x] == s.pc[x] && WorkerStep(j, s, n).nodeState[x] == s.nodeState[x]
    ensures Weight(j, n, WorkerStep(j, s, n).nodeState[n], WorkerStep(j, s, n).pc[n])
          < Weight(j, n, s.nodeState[n], s.pc[n])
  {
    LocalAt(j, s, n);
    hide WorkerStep, LocalOk, PcWeight;
    if s.pc[n].Decrementing? || s.pc[n].RecordingCancel? || s.pc[n].CountingCancel? {
      LoopLighter(j, s, n);
    } else {
      OutcomeLighter(j, s, n);
    }
  }

  lemma SkipLighter(j: Job, s: State, s': State, n: NodeId, i: nat, stack: seq<NodeId>)
    requires Shape(j, s) && AtCancel(j, s, n, i, stack) && s' == Cancel(j, s, n, i, stack) && Shape(j, s')
    requires stack != [] ==> !s.nodeState[stack[|stack| - 1]].Pending?
    ensures s'.nodeState == s.nodeState && s'.pc == s.pc[n := s'.pc[n]]
    ensures PcWeight(j, n, s'.pc[n]) < PcWeight(j, n, s.pc[n])
  {
  }

  lemma CasLighter(j: Job, s: State, s': State, n: NodeId, i: nat, stack: seq<NodeId>, v: NodeId)
    requires Shape(j, s) && AtCas(j, s, n, i, stack, v) && s' == Cancel(j, s, n, i, stack) && Shape(j, s')
    ensures s'.nodeState == s.nodeState[v := Cancelled] && s'.pc == s.pc[n := s'.pc[n]] && v in s.pc && n != v
    ensures Weight(j, n, s'.nodeState[n], s'.pc[n]) + Weight(j, v, s'.nodeState[v], s'.pc[v])
          < Weight(j, n, s.nodeState[n], s.pc[n]) + Weight(j, v, s.nodeState[v], s.pc[v])
  {
  }

  lemma CancelLighter(j: Job, s: State, n: NodeId, i: nat, stack: seq<NodeId>)
    requires ValidJob(j) && Shape(j, s) && LocalInv(j, s) && DoomInv(j, s)
    requires n in s.pc && s.pc[n] == Cancelling(i, stack) && AtCancel(j, s, n, i, stack)
    requires Shape(j, Cancel(j, s, n, i, stack))
    ensures Sum(j.g.nodes, Weights(j, Cancel(j, s, n, i, stack))) < Sum(j.g.nodes, Weights(j, s))
  {
    hide LocalInv, DoomInv, ValidJob, Sum, Weights, Cancel, PcWeight, AtCas, Doomed;
    var s' := Cancel(j, s, n, i, stack);
    if stack != [] && s.nodeState[stack[|stack| - 1]].Pending? {
      CasFinds(j, s, n, i, stack);
      CasLighter(j, s, s', n, i, stack, stack[|stack| - 1]);
      TwoChanges(j, s, s', n, stack[|stack| - 1]);
    } else {
      SkipLighter(j, s, s', n, i, stack);
      OneChange(j, s, s', n);
    }
  }

  lemma ClaimLighter(j: Job, s: State, n: NodeId, i: nat)
    requires ValidJob(j) && Shape(j, s) && LocalInv(j, s) && ClaimInv(j, s)
    requires n in s.pc && s.pc[n] == Claiming(i) && j.g.down[n][i] in s.nodeState
    requires Shape(j, Claim(j, s, n, i))
    ensures Sum(j.g.nodes, Weights(j, Claim(j, s, n, i))) < Sum(j.g.nodes, Weights(j, s))
  {
    hide LocalInv, ClaimInv, ValidJob, Sum, Weights, TriesLeft, MaxAttempts;
    ClaimSucceeds(j, s, n, i);
    TwoChanges(j, s, Claim(j, s, n, i), n, j.g.down[n][i]);
  }

  lemma EnqueueLighter(j: Job, s: State, n: NodeId, i: nat)
    requires ValidJob(j) && Shape(j, s) && EnqueueInv(j, s)
    requires n in s.pc && s.pc[n] == Enqueueing(i)
    requires Shape(j, Enqueue(j, s, n, i))
    ensures Sum(j.g.nodes, Weights(j, Enqueue(j, s, n, i))) < Sum(j.g.nodes, Weights(j, s))
  {
    hide EnqueueInv, ValidJob, Sum, Weights, MaxAttempts, TriesLeft;
    EnqueueFinds(j, s, n, i);
    TwoChanges(j, s, Enqueue(j, s, n, i), n, j.g.down[n][i]);
  }

  lemma WorkerLighter(j: Job, s: State, n: NodeId)
    requires Inv(j, s) && WorkerEnabled(s, n) && Shape(j, WorkerStep(j, s, n))
    ensures WorkerStep(j, s, n).main == s.main
    ensures Measure(j, WorkerStep(j, s, n)) < Measure(j, s)
  {
    hide LocalInv, CauseInv, DoomInv, HoldInv, CounterInv, ClaimInv, EnqueueInv, ScanInv, ReadyInv, RunningInv,
      ClosureInv, LatchInv, ValidJob, Sum, Weights, Weight, Claim, Enqueue, Cancel;
    WorkerKeepsFlag(j, s, n);
    if s.pc[n].Claiming? {
      ClaimLighter(j, s, n, s.pc[n].i);
    } else if s.pc[n].Enqueueing? {
      EnqueueLighter(j, s, n, s.pc[n].i);
    } else if s.pc[n].Cancelling? {
      CancelLighter(j, s, n, s.pc[n].i, s.pc[n].stack);
    } else {
      OwnStepLighter(j, s, n);
      OneChange(j, s, WorkerStep(j, s, n), n);
    }
  }

  lemma RootLighter(j: Job, s: State, i: nat)
    requires ValidJob(j) && Shape(j, s) && ScanInv(j, s) && s.main == Scanning(i) && i < |j.g.nodes|
    requires Root(j, j.g.nodes[i]) && j.g.nodes[i] in s.nodeState && Shape(j, ScanRoot(j, s, i))
    ensures Measure(j, ScanRoot(j, s, i)) < Measure(j, s)
  {
    RootFinds(j, s, i);
    hide ScanInv, ValidJob, Sum, Weights;
    OneChange(j, s, ScanRoot(j, s, i), j.g.nodes[i]);
  }

  lemma RootEnqueueLighter(j: Job, s: State, i: nat)
    requires ValidJob(j) && Shape(j, s) && ScanInv(j, s) && s.main == EnqueueingRoot(i)
    requires Shape(j, EnqueueRoot(j, s, i))
    ensures Measure(j, EnqueueRoot(j, s, i)) < Measure(j, s)
  {
    RootEnqueueFinds(j, s, i);
    hide ScanInv, ValidJob, Sum, Weights;
    OneChange(j, s, EnqueueRoot(j, s, i), j.g.nodes[i]);
  }

  lemma MainLighter(j: Job, s: State)
    requires Inv(j, s) && MainEnabled(s) && Shape(j, MainStep(j, s))
    ensures Measure(j, MainStep(j, s)) < Measure(j, s)
  {
    hide LocalInv, CauseInv, DoomInv, HoldInv, CounterInv, ClaimInv, EnqueueInv, ScanInv, ReadyInv, RunningInv,
      ClosureInv, LatchInv, ValidJob, Sum, Weight;
    if s.main.Scanning? && s.main.i < |j.g.nodes| && Root(j, j.g.nodes[s.main.i]) {
      RootLighter(j, s, s.main.i);
    } else if s.main.EnqueueingRoot? {
      RootEnqueueLighter(j, s, s.main.i);
    } else {
      assert Weights(j, MainStep(j, s)) == Weights(j, s);
    }
  }

  lemma FreshMeasure(j: Job, s: State)
    requires Shape(j, s) && Fresh(j, s)
    ensures Measure(j, s) == ScanBound(j)
  {
    assert Weights(j, s) == FreshWeights(j);
  }

  lemma ResetLighter(j: Job, s: State)
    requires ResetInv(j, s) && Shape(j, MainStep(j, s))
    ensures Measure(j, MainStep(j, s)) < Measure(j, s)
  {
    hide Sum, Weight;
    if s.main.i == |j.g.nodes| {
      var s' := MainStep(j, s);
      forall n | n in s'.pc ensures s'.nodeState[n].Pending? && s'.left[n] == |j.g.deps[n]| {
        InNodes(j, n);
        var k :| 0 <= k < |j.g.nodes| && j.g.nodes[k] == n;
      }
      FreshMeasure(j, s');
    }
  }

  /** Every step of every actor lowers the measure. */
  lemma StepLighter(j: Job, s: State, a: Actor)
    requires RunInv(j, s) && Shape(j, s) && Enabled(s, a) && Shape(j, Step(j, s, a))
    ensures Measure(j, Step(j, s, a)) < Measure(j, s)
  {
    if ResetInv(j, s) {
      assert a == Main;
      ResetLighter(j, s);
    } else {
      hide ResetInv, LocalInv, CauseInv, DoomInv, HoldInv, CounterInv, ClaimInv, EnqueueInv, ScanInv, ReadyInv,
        RunningInv, ClosureInv, LatchInv, WorkerStep, MainStep, Measure;
      match a {
        case Main => MainLighter(j, s);
        case Worker(n) => WorkerLighter(j, s, n);
      }
    }
  }

  /** Termination.  No run, complete or not, has more steps than a bound computed from the
      graph and the retry budgets. */
  lemma {:induction false} RunsAreBounded(j: Job, before: State, t: seq<State>)
    requires IsRun(j, before, t)
    ensures Shape(j, t[|t| - 1]) && |t| + Measure(j, t[|t| - 1]) <= ScanBound(j) + |j.g.nodes| + 2
  {
    hide RunInv, Next, StartRun, Quiescent, ValidJob;
    RunKeepsInv(j, before, t);
    if |t| == 1 {
      assert Measure(j, t[0]) <= ScanBound(j) + |j.g.nodes| + 1 by { StartMeasure(j, before); }
    } else {
      var r := t[..|t| - 1];
      RunKeepsInv(j, before, r);
      RunsAreBounded(j, before, r);
      NextLighter(j, t[|t| - 2], t[|t| - 1]);
    }
  }

  lemma StartMeasure(j: Job, before: State)
    requires Shape(j, StartRun(j, before))
    ensures Measure(j, StartRun(j, before)) == ScanBound(j) + |j.g.nodes| + 1
  {
  }

  lemma NextLighter(j: Job, s: State, s': State)
    requires RunInv(j, s) && Next(j, s, s') && Shape(j, s')
    ensures Measure(j, s') < Measure(j, s)
  {
    hide RunInv, Shape, Measure;
    var a :| Enabled(s, a) && s' == Step(j, s, a);
    StepLighter(j, s, a);
  }
}
