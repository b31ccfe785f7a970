/** Nothing in a run moves backwards: counters and the latch only fall, node states and
    worker positions only advance.  So every event of a node happens at most once per run,
    and the work done on downstream entries is bounded by their number. */
module SchedulerForward {
  import opened DependencyGraph
  import opened NodeExecution
  import opened SchedulerModel
  import opened SchedulerInvariant
  import opened SchedulerOutcomeSteps
  import opened SchedulerRuns

  /** `Pending` can become anything, `Running` only the node's own result. */
  ghost predicate StateLater(a: NodeState, b: NodeState) {
    a == b || a.Pending? || (a.Running? && (b.Success? || b.Failed?))
  }

  ghost function Phase(pc: Pc): nat {
    match pc
    case Absent => 0
    case Queued => 1
    case Attempting(_) => 2
    case Storing(_) => 3
    case Recording(_) => 4
    case Counting(_) => 5
    case Finished(_) => 7
    case _ => 6
  }

  /** How many entries of its own downstream list a worker has taken up. */
  ghost function Entered(j: Job, n: NodeId, pc: Pc): nat
    requires n in j.g.down
  {
    match pc
    case Decrementing(i) => i
    case Claiming(i) => i + 1
    case Enqueueing(i) => i + 1
    case Cancelling(i, _) => i
    case RecordingCancel(i, _, _) => i
    case CountingCancel(i, _, _) => i
    case Finished(_) => |j.g.down[n]|
    case _ => 0
  }

  ghost predicate PcLater(j: Job, n: NodeId, a: Pc, b: Pc)
    requires n in j.g.down
  {
    Phase(a) < Phase(b) || (Phase(a) == Phase(b) && Entered(j, n, a) <= Entered(j, n, b))
  }

  /** The tables of a later state: everything has stayed or advanced. */
  ghost predicate Tables(j: Job, s: State, s': State) {
    && s'.latch <= s.latch
    && s'.pc.Keys == s.pc.Keys && s'.left.Keys == s.left.Keys && s'.nodeState.Keys == s.nodeState.Keys
    && (forall v :: v in s.left ==> s'.left[v] <= s.left[v])
    && (forall v :: v in s.nodeState ==> StateLater(s.nodeState[v], s'.nodeState[v]))
    && (forall n :: n in s.pc && n in j.g.down ==> PcLater(j, n, s.pc[n], s'.pc[n]))
  }

  /** A node that has counted down stays so. */
  ghost predicate Later(j: Job, s: State, s': State) {
    Tables(j, s, s') && forall v {:trigger Uncounted(s', v)} :: v in s.pc && Uncounted(s', v) ==> Uncounted(s, v)
  }

  // ------------------------------------------------------------ one step

  /** A node that has counted down is in a final state, out of the hands of every canceller. */
  lemma CountedStays(j: Job, s: State, s': State, v: NodeId)
    requires Shape(j, s) && Shape(j, s') && Tables(j, s, s') && v in s.pc && !Uncounted(s, v)
    requires LocalOk(j, s, v) && LocalOk(j, s', v)
    requires forall w :: Holds(s', w, v) && !Holds(s, w, v) ==> s.nodeState[v].Pending?
    ensures !Uncounted(s', v)
  {
  }

  lemma AttemptTables(j: Job, s: State, n: NodeId, s': State)
    requires Shape(j, s) && WorkerEnabled(s, n) && LocalOk(j, s, n) && s' == WorkerStep(j, s, n)
    requires s.pc[n].Queued? || s.pc[n].Attempting? || s.pc[n].Storing? || s.pc[n].Recording? || s.pc[n].Counting?
    ensures Tables(j, s, s')
  {
    hide OwnSuccess, AttemptResult, MaxAttempts, Decrement, Claim, Enqueue, Cancel, RecordCancel, CountCancel,
      PcInRange;
  }

  lemma DecrementTables(j: Job, s: State, n: NodeId, i: nat)
    requires n in s.pc && s.pc[n] == Decrementing(i) && n in j.g.down && i <= |j.g.down[n]|
    requires i < |j.g.down[n]| ==> j.g.down[n][i] in s.left
    ensures Tables(j, s, Decrement(j, s, n, i))
  {
  }

  lemma ClaimTables(j: Job, s: State, n: NodeId, i: nat)
    requires n in s.pc && s.pc[n] == Claiming(i) && n in j.g.down && i < |j.g.down[n]| && j.g.down[n][i] in s.nodeState
    ensures Tables(j, s, Claim(j, s, n, i))
  {
  }

  lemma EnqueueTables(j: Job, s: State, n: NodeId, i: nat)
    requires n in s.pc && s.pc[n] == Enqueueing(i) && n in j.g.down && i < |j.g.down[n]|
    requires j.g.down[n][i] in s.pc && s.pc[j.g.down[n][i]].Absent?
    ensures Tables(j, s, Enqueue(j, s, n, i))
  {
  }

  lemma SuccessTables(j: Job, s: State, n: NodeId, s': State)
    requires Shape(j, s) && EnqueueInv(j, s) && WorkerEnabled(s, n) && s' == WorkerStep(j, s, n)
    requires s.pc[n].Decrementing? || s.pc[n].Claiming? || s.pc[n].Enqueueing?
    ensures Tables(j, s, s')
  {
    hide Tables, Decrement, Claim, Enqueue;
    if s.pc[n].Decrementing? {
      DecrementTables(j, s, n, s.pc[n].i);
    } else if s.pc[n].Claiming? {
      ClaimTables(j, s, n, s.pc[n].i);
    } else {
      assert Enqueues(j, s, n, j.g.down[n][s.pc[n].i]);
      EnqueueTables(j, s, n, s.pc[n].i);
    }
  }

  lemma PopTables(j: Job, s: State, n: NodeId, i: nat, stack: seq<NodeId>)
    requires n in s.pc && s.pc[n] == Cancelling(i, stack) && n in j.g.down && i <= |j.g.down[n]|
    requires stack != [] ==> stack[|stack| - 1] in s.nodeState
    ensures Tables(j, s, Cancel(j, s, n, i, stack))
  {
  }

  lemma CancelTables(j: Job, s: State, n: NodeId, s': State)
    requires Shape(j, s) && WorkerEnabled(s, n) && s' == WorkerStep(j, s, n)
    requires s.pc[n].Cancelling? || s.pc[n].RecordingCancel? || s.pc[n].CountingCancel?
    ensures Tables(j, s, s')
  {
    hide Cancel;
    if s.pc[n].Cancelling? {
      StackInTable(j, s, n);
      PopTables(j, s, n, s.pc[n].i, s.pc[n].stack);
    }
  }

  lemma StackInTable(j: Job, s: State, n: NodeId)
    requires Shape(j, s) && n in s.pc && s.pc[n].Cancelling?
    ensures var stack := s.pc[n].stack; stack != [] ==> stack[|stack| - 1] in s.nodeState
    ensures n in j.g.down && s.pc[n].i <= |j.g.down[n]|
  {
    assert PcInRange(j, n, s.pc[n]);
  }

  lemma MainTables(j: Job, s: State, s': State)
    requires Shape(j, s) && ScanInv(j, s) && MainEnabled(s) && !s.main.Resetting? && s' == MainStep(j, s)
    ensures Tables(j, s, s')
  {
    hide PcInRange;
  }

  lemma NewHoldsOfPop(j: Job, s: State, n: NodeId, i: nat, stack: seq<NodeId>, w: NodeId, v: NodeId)
    requires n in s.pc && s.pc[n] == Cancelling(i, stack) && n in j.g.down && i <= |j.g.down[n]|
    requires stack != [] ==> stack[|stack| - 1] in s.nodeState
    requires Holds(Cancel(j, s, n, i, stack), w, v) && !Holds(s, w, v) && v in s.nodeState
    ensures s.nodeState[v].Pending?
  {
  }

  lemma NoHoldsOfAttempt(j: Job, s: State, n: NodeId, k: nat, w: NodeId, v: NodeId)
    requires n in j.spec
    ensures Holds(Attempt1(j, s, n, k), w, v) ==> Holds(s, w, v)
  {
    hide AttemptResult, MaxAttempts;
  }

  lemma NoHoldsOfLoop(j: Job, s: State, n: NodeId, w: NodeId, v: NodeId)
    requires Shape(j, s) && n in s.pc && (s.pc[n].Decrementing? || s.pc[n].Claiming? || s.pc[n].Enqueueing?)
    ensures Holds(WorkerStep(j, s, n), w, v) ==> Holds(s, w, v)
  {
    hide Attempt1, Cancel, PcInRange, StoreOutcome, RecordOutcome, CountOutcome, RecordCancel, CountCancel, StartTask;
  }

  lemma NoNewHolds(j: Job, s: State, n: NodeId, w: NodeId, v: NodeId)
    requires Shape(j, s) && WorkerEnabled(s, n) && !s.pc[n].Cancelling?
    ensures Holds(WorkerStep(j, s, n), w, v) ==> Holds(s, w, v)
  {
    hide Cancel, PcInRange, Attempt1, Decrement, Claim, Enqueue;
    match s.pc[n] {
      case Attempting(k) => NoHoldsOfAttempt(j, s, n, k, w, v);
      case Decrementing(i) => NoHoldsOfLoop(j, s, n, w, v);
      case Claiming(i) => NoHoldsOfLoop(j, s, n, w, v);
      case Enqueueing(i) => NoHoldsOfLoop(j, s, n, w, v);
      case _ =>
    }
  }

  /** Only a won CAS of a canceller starts a hold. */
  lemma NewHolds(j: Job, s: State, a: Actor, s': State, w: NodeId, v: NodeId)
    requires Shape(j, s) && Enabled(s, a) && s' == Step(j, s, a) && v in s.nodeState
    requires Holds(s', w, v) && !Holds(s, w, v)
    ensures s.nodeState[v].Pending?
  {
    hide Cancel, Holds;
    match a {
      case Main => NoHoldsByMain(j, s, w, v);
      case Worker(n) =>
        if s.pc[n].Cancelling? {
          StackInTable(j, s, n);
          NewHoldsOfPop(j, s, n, s.pc[n].i, s.pc[n].stack, w, v);
        } else {
          NoNewHolds(j, s, n, w, v);
        }
    }
  }

  lemma NoHoldsByMain(j: Job, s: State, w: NodeId, v: NodeId)
    requires Shape(j, s) && MainEnabled(s)
    ensures Holds(MainStep(j, s), w, v) ==> Holds(s, w, v)
  {
  }

  lemma StepLater(j: Job, s: State, a: Actor)
    requires Inv(j, s) && Enabled(s, a)
    ensures Inv(j, Step(j, s, a)) && Later(j, s, Step(j, s, a))
  {
    hide LocalInv, CauseInv, DoomInv, HoldInv, CounterInv, ClaimInv, EnqueueInv, ScanInv, ReadyInv, RunningInv,
      ClosureInv, LatchInv, ValidJob, WorkerStep, MainStep, Uncounted, Holds, LocalOk, Tables;
    var s' := Step(j, s, a);
    match a {
      case Main =>
        MainKeepsInv(j, s);
        MainTables(j, s, s');
      case Worker(n) =>
        WorkerKeepsInv(j, s, n);
        assert LocalOk(j, s, n) by { LocalAt(j, s, n); }
        if s.pc[n].Queued? || s.pc[n].Attempting? || s.pc[n].Storing? || s.pc[n].Recording? || s.pc[n].Counting? {
          AttemptTables(j, s, n, s');
        } else if s.pc[n].Decrementing? || s.pc[n].Claiming? || s.pc[n].Enqueueing? {
          SuccessTables(j, s, n, s');
        } else {
          CancelTables(j, s, n, s');
        }
    }
    TablesAreLater(j, s, a, s');
  }

  lemma TablesAreLater(j: Job, s: State, a: Actor, s': State)
    requires Shape(j, s) && Shape(j, s') && LocalInv(j, s) && LocalInv(j, s') && Enabled(s, a) && s' == Step(j, s, a)
    requires Tables(j, s, s')
    ensures Later(j, s, s')
  {
    hide Uncounted, Holds, LocalOk, Step, StateLater, PcLater, Enabled;
    forall v | v in s.pc && Uncounted(s', v) ensures Uncounted(s, v) {
      if !Uncounted(s, v) {
        assert LocalOk(j, s, v) && LocalOk(j, s', v);
        forall w | Holds(s', w, v) && !Holds(s, w, v) ensures s.nodeState[v].Pending? {
          NewHolds(j, s, a, s', w, v);
        }
        CountedStays(j, s, s', v);
      }
    }
  }

  // ------------------------------------------------------------ a stretch of a run

  lemma LaterItself(j: Job, s: State)
    ensures Later(j, s, s)
  {
  }

  lemma StateThrough(a: NodeState, b: NodeState, c: NodeState)
    requires StateLater(a, b) && StateLater(b, c)
    ensures StateLater(a, c)
  {
  }

  lemma PcThrough(j: Job, n: NodeId, a: Pc, b: Pc, c: Pc)
    requires n in j.g.down && PcLater(j, n, a, b) && PcLater(j, n, b, c)
    ensures PcLater(j, n, a, c)
  {
  }

  lemma LaterThrough(j: Job, a: State, b: State, c: State)
    requires Later(j, a, b) && Later(j, b, c)
    ensures Later(j, a, c)
  {
    hide Uncounted, StateLater, PcLater;
    forall v | v in a.nodeState ensures StateLater(a.nodeState[v], c.nodeState[v]) {
      StateThrough(a.nodeState[v], b.nodeState[v], c.nodeState[v]);
    }
    forall n | n in a.pc && n in j.g.down ensures PcLater(j, n, a.pc[n], c.pc[n]) {
      PcThrough(j, n, a.pc[n], b.pc[n], c.pc[n]);
    }
    forall v | v in a.pc && Uncounted(c, v) ensures Uncounted(a, v) {
      assert Uncounted(b, v);
    }
  }

  lemma NextIsLater(j: Job, s: State, s': State)
    requires Inv(j, s) && Next(j, s, s')
    ensures Inv(j, s') && Later(j, s, s')
  {
    hide Inv, Later, Shape;
    var a :| Enabled(s, a) && s' == Step(j, s, a);
    StepLater(j, s, a);
  }

  lemma PastResetInv(j: Job, before: State, t: seq<State>, i: nat)
    requires IsRun(j, before, t) && i < |t| && !t[i].main.Resetting?
    ensures Inv(j, t[i])
  {
    hide Next, Inv, StartRun, Quiescent, ValidJob, Shape;
    assert IsRun(j, before, t[..i + 1]);
    RunKeepsInv(j, before, t[..i + 1]);
  }

  /** From the end of the reset on, later states of a run are later. */
  lemma {:induction false} RunLater(j: Job, before: State, t: seq<State>, i: nat, k: nat)
    requires IsRun(j, before, t) && i <= k < |t| && !t[i].main.Resetting?
    ensures Inv(j, t[i]) && Inv(j, t[k]) && Later(j, t[i], t[k])
    decreases k
  {
    hide Inv, Later, Next, StartRun, Quiescent, ValidJob, Shape;
    PastResetInv(j, before, t, i);
    if i == k {
      InvShape(j, t[i]);
      LaterItself(j, t[i]);
    } else {
      RunLater(j, before, t, i, k - 1);
      assert Next(j, t[k - 1], t[k]);
      NextIsLater(j, t[k - 1], t[k]);
      InvShape(j, t[i]);
      InvShape(j, t[k - 1]);
      InvShape(j, t[k]);
      LaterThrough(j, t[i], t[k - 1], t[k]);
    }
  }

  lemma InvShape(j: Job, s: State)
    requires Inv(j, s)
    ensures Shape(j, s)
  {
  }

  // ------------------------------------------------------------ at most once

  /** The events of a node `v` between two states. */
  ghost predicate ReachesZero(s: State, s': State, v: NodeId) {
    v in s.left && v in s'.left && s.left[v] > 0 && s'.left[v] <= 0
  }

  ghost predicate IsEnqueued(s: State, s': State, v: NodeId) {
    v in s.pc && v in s'.pc && s.pc[v].Absent? && !s'.pc[v].Absent?
  }

  ghost predicate IsClaimed(s: State, s': State, v: NodeId) {
    v in s.nodeState && v in s'.nodeState && s.nodeState[v].Pending? && !s'.nodeState[v].Pending?
  }

  ghost predicate IsSettled(s: State, s': State, v: NodeId) {
    v in s.nodeState && v in s'.nodeState && s.nodeState[v].Running? && !s'.nodeState[v].Running?
  }

  ghost predicate CountsDown(s: State, s': State, v: NodeId) {
    v in s.pc && Uncounted(s, v) && !Uncounted(s', v)
  }

  ghost predicate TakesEntry(j: Job, s: State, s': State, v: NodeId, e: nat) {
    v in s.pc && v in s'.pc && v in j.g.down && Entered(j, v, s.pc[v]) == e < Entered(j, v, s'.pc[v])
  }

  /** In a run each of these events happens to a node at most once: its counter reaches
      zero, it is claimed or cancelled, it is enqueued, it settles, it counts down, and a
      given entry of its downstream list is taken up by its own loop. */
  lemma AtMostOnce(j: Job, before: State, t: seq<State>, i: nat, k: nat, v: NodeId, e: nat)
    requires IsRun(j, before, t) && i < k && k + 1 < |t| && !t[i].main.Resetting?
    ensures !(ReachesZero(t[i], t[i + 1], v) && ReachesZero(t[k], t[k + 1], v))
    ensures !(IsClaimed(t[i], t[i + 1], v) && IsClaimed(t[k], t[k + 1], v))
    ensures !(IsEnqueued(t[i], t[i + 1], v) && IsEnqueued(t[k], t[k + 1], v))
    ensures !(IsSettled(t[i], t[i + 1], v) && IsSettled(t[k], t[k + 1], v))
    ensures !(CountsDown(t[i], t[i + 1], v) && CountsDown(t[k], t[k + 1], v))
    ensures !(TakesEntry(j, t[i], t[i + 1], v, e) && TakesEntry(j, t[k], t[k + 1], v, e))
  {
    hide Inv, Next, StartRun, Quiescent, ValidJob, Uncounted, Later, Shape;
    RunLater(j, before, t, i, i + 1);
    assert !t[i + 1].main.Resetting? by { InvNotResetting(j, t[i + 1]); }
    RunLater(j, before, t, i + 1, k);
    EnteredInRange(j, t[i + 1], v);
    hide IsRun;
    OnceOnly(j, t[i], t[i + 1], t[k], v, e);
  }

  lemma EnteredInRange(j: Job, s: State, v: NodeId)
    requires Inv(j, s)
    ensures v in s.pc ==> v in j.g.down && Entered(j, v, s.pc[v]) <= |j.g.down[v]|
  {
    hide LocalInv, CauseInv, DoomInv, HoldInv, CounterInv, ClaimInv, EnqueueInv, ScanInv, ReadyInv, RunningInv,
      ClosureInv, LatchInv, ValidJob;
    if v in s.pc {
      assert PcInRange(j, v, s.pc[v]);
    }
  }

  lemma InvNotResetting(j: Job, s: State)
    requires Inv(j, s)
    ensures !s.main.Resetting?
  {
  }

  /** What an event leaves behind is still there at any later state. */
  lemma OnceOnly(j: Job, a: State, b: State, c: State, v: NodeId, e: nat)
    requires Later(j, a, b) && Later(j, b, c)
    requires v in b.pc ==> v in j.g.down && Entered(j, v, b.pc[v]) <= |j.g.down[v]|
    ensures ReachesZero(a, b, v) ==> v in c.left && c.left[v] <= 0
    ensures IsClaimed(a, b, v) ==> v in c.nodeState && !c.nodeState[v].Pending?
    ensures IsEnqueued(a, b, v) ==> v in c.pc && !c.pc[v].Absent?
    ensures IsSettled(a, b, v) ==> v in c.nodeState && !c.nodeState[v].Running?
    ensures CountsDown(a, b, v) ==> !Uncounted(c, v)
    ensures TakesEntry(j, a, b, v, e) ==> v in c.pc && Entered(j, v, c.pc[v]) > e
  {
    hide Uncounted;
    if v in a.nodeState {
      assert StateLater(a.nodeState[v], b.nodeState[v]) && StateLater(b.nodeState[v], c.nodeState[v]);
    }
    if v in a.pc && v in j.g.down {
      assert PcLater(j, v, a.pc[v], b.pc[v]) && PcLater(j, v, b.pc[v], c.pc[v]);
    }
  }
}
