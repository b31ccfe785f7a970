/** The engine in its own form: an object whose methods change the tables between atomic
    operations of other threads.  Before each atomic operation `Interfere` lets the other
    actors take any number of steps, chosen by an arbitrary schedule.  Each method moves
    exactly as the protocol's step function does, so the protocol's theorems hold of it. */
module WorkflowEngineModel {
  import opened DependencyGraph
  import opened NodeExecution
  import opened SchedulerModel
  import opened SchedulerInvariant
  import opened SchedulerOutcomeSteps
  import opened SchedulerRuns
  import opened SchedulerOutcome
  import opened SchedulerProgress
  import opened SchedulerTermination
  import opened SchedulerAfterwards
  import SchedulerForward

  /** A step of another actor leaves a started worker, or the main thread, where it is. */
  ghost predicate SamePlace(s: State, s': State, me: Actor) {
    match me
    case Main => s'.main == s.main && s'.running == s.running
    case Worker(n) => n in s.pc && n in s'.pc && s'.pc[n] == s.pc[n]
  }

  ghost predicate Started(s: State, me: Actor) {
    me.Worker? ==> me.n in s.pc && !s.pc[me.n].Absent?
  }

  lemma OthersKeepPlace(j: Job, s: State, b: Actor, me: Actor)
    requires Inv(j, s) && Enabled(s, b) && b != me && Started(s, me)
    ensures SamePlace(s, Step(j, s, b), me)
  {
    hide LocalInv, CauseInv, DoomInv, HoldInv, CounterInv, ClaimInv, EnqueueInv, ScanInv, ReadyInv, RunningInv,
      ClosureInv, LatchInv, ValidJob, PcInRange, WorkerStep;
    match b {
      case Main =>
        if s.main.EnqueueingRoot? {
          assert s.pc[j.g.nodes[s.main.i]].Absent? by { RootNotInPool(j, s); }
        }
      case Worker(n) => WorkersKeepPlace(j, s, n, me);
    }
  }

  /** Short of an enqueue, a worker moves no other. */
  lemma OnlyOwn(j: Job, s: State, n: NodeId, w: NodeId)
    requires Shape(j, s) && WorkerEnabled(s, n) && !s.pc[n].Enqueueing? && w in s.pc && w != n
    ensures w in WorkerStep(j, s, n).pc && WorkerStep(j, s, n).pc[w] == s.pc[w]
  {
    hide PcInRange, AttemptResult, MaxAttempts, Enqueue, Attempt1, Decrement, Claim, Cancel;
    match s.pc[n] {
      case Attempting(k) => OwnAttempt(j, s, n, k, w);
      case Decrementing(i) => OwnLoop(j, s, n, w);
      case Claiming(i) => OwnLoop(j, s, n, w);
      case Cancelling(i, stack) => OwnPop(j, s, n, w);
      case _ =>
    }
  }

  lemma OwnAttempt(j: Job, s: State, n: NodeId, k: nat, w: NodeId)
    requires n in j.spec && w in s.pc && w != n
    ensures w in Attempt1(j, s, n, k).pc && Attempt1(j, s, n, k).pc[w] == s.pc[w]
  {
  }

  lemma OwnLoop(j: Job, s: State, n: NodeId, w: NodeId)
    requires Shape(j, s) && n in s.pc && w in s.pc && w != n && (s.pc[n].Decrementing? || s.pc[n].Claiming?)
    ensures w in WorkerStep(j, s, n).pc && WorkerStep(j, s, n).pc[w] == s.pc[w]
  {
    hide Attempt1, Cancel, PcInRange, StoreOutcome, RecordOutcome, CountOutcome, RecordCancel, CountCancel, StartTask;
  }

  lemma OwnPop(j: Job, s: State, n: NodeId, w: NodeId)
    requires Shape(j, s) && n in s.pc && w in s.pc && w != n && s.pc[n].Cancelling?
    ensures w in WorkerStep(j, s, n).pc && WorkerStep(j, s, n).pc[w] == s.pc[w]
  {
  }

  lemma WorkersKeepPlace(j: Job, s: State, n: NodeId, me: Actor)
    requires Shape(j, s) && EnqueueInv(j, s) && WorkerEnabled(s, n) && Worker(n) != me && Started(s, me)
    ensures SamePlace(s, WorkerStep(j, s, n), me)
  {
    if s.pc[n].Enqueueing? {
      assert Enqueues(j, s, n, j.g.down[n][s.pc[n].i]);
    } else {
      hide WorkerStep, PcInRange;
      WorkerKeepsFlag(j, s, n);
      if me.Worker? {
        OnlyOwn(j, s, n, me.n);
      }
    }
  }

  lemma RootNotInPool(j: Job, s: State)
    requires Shape(j, s) && ScanInv(j, s) && s.main.EnqueueingRoot?
    ensures s.pc[j.g.nodes[s.main.i]].Absent?
  {
  }

  lemma StepOk(j: Job, s: State, a: Actor)
    requires Inv(j, s) && Enabled(s, a)
    ensures Inv(j, Step(j, s, a)) && Measure(j, Step(j, s, a)) < Measure(j, s)
  {
    hide LocalInv, CauseInv, DoomInv, HoldInv, CounterInv, ClaimInv, EnqueueInv, ScanInv, ReadyInv, RunningInv,
      ClosureInv, LatchInv, ValidJob, WorkerStep, MainStep, Measure;
    match a {
      case Main => MainKeepsInv(j, s); MainLighter(j, s);
      case Worker(n) => WorkerKeepsInv(j, s, n); WorkerLighter(j, s, n);
    }
  }

  class WorkflowEngine {
    var job: Job
    var nodeState: map<NodeId, NodeState>
    var left: map<NodeId, int>
    var latch: int
    var metrics: Metrics
    var running: bool
    var main: MainPc
    var pc: map<NodeId, Pc>
    /** What the other actors do, one batch between any two of our atomic operations. */
    var schedule: seq<seq<Actor>>

    /** The engine as `loadConfig` leaves it: no run yet, and nothing in the pool. */
    constructor (g: Graph, spec: map<NodeId, NodeSpec>, schedule: seq<seq<Actor>>)
      requires WellFormed(g) && Acyclic(g) && forall n :: n in spec <==> n in g.nodes
      ensures Loaded() && !running && job.g == g && job.spec == spec && metrics == Metrics(0, 0, 0)
      ensures this.schedule == schedule
    {
      job := Job(g, spec, Metrics(0, 0, 0));
      nodeState := map n | n in g.down :: Pending;
      left := map n | n in g.down :: 0;
      pc := map n | n in g.down :: Absent;
      latch, metrics, running, main := 0, Metrics(0, 0, 0), false, Idle;
      this.schedule := schedule;
    }

    function View(): State
      reads this
    {
      State(nodeState, left, latch, metrics, running, main, pc)
    }

    ghost predicate Good()
      reads this
    {
      Inv(job, View())
    }

    method Become(s: State)
      modifies this
      ensures View() == s && job == old(job) && schedule == old(schedule)
    {
      nodeState, left, latch, metrics := s.nodeState, s.left, s.latch, s.metrics;
      running, main, pc := s.running, s.main, s.pc;
    }

    /** One step of another actor. */
    method OtherStep(me: Actor, other: Actor)
      requires Good() && Started(View(), me) && other != me && Enabled(View(), other)
      modifies this
      ensures Good() && job == old(job) && schedule == old(schedule)
      ensures SamePlace(old(View()), View(), me) && Started(View(), me)
      ensures Measure(job, View()) < old(Measure(job, View()))
    {
      hide Inv, Measure;
      assert Shape(job, View()) by { GoodShape(); }
      StepOk(job, View(), other);
      OthersKeepPlace(job, View(), other, me);
      Become(Step(job, View(), other));
    }

    /** Other actors run: any of them, any number of steps. */
    method Interfere(me: Actor)
      requires Good() && Started(View(), me)
      modifies this
      ensures Good() && job == old(job)
      ensures SamePlace(old(View()), View(), me)
      ensures Measure(job, View()) <= old(Measure(job, View()))
    {
      hide Measure, Step, Enabled, LocalInv, CauseInv, DoomInv, HoldInv, CounterInv, ClaimInv, EnqueueInv, ScanInv,
        ReadyInv, RunningInv, ClosureInv, LatchInv, ValidJob;
      if schedule == [] {
        return;
      }
      var batch := schedule[0];
      schedule := schedule[1..];
      for k := 0 to |batch|
        invariant Good() && job == old(job) && SamePlace(old(View()), View(), me) && Started(View(), me)
        invariant Measure(job, View()) <= old(Measure(job, View()))
      {
        if batch[k] != me && Enabled(View(), batch[k]) {
          OtherStep(me, batch[k]);
        }
      }
    }

    lemma GoodShape()
      requires Good()
      ensures Shape(job, View())
    {
    }

    // ---------------------------------------------------------- atomic operations

    method StoreState(n: NodeId, ok: bool)
      modifies this`nodeState, this`pc
      ensures View() == StoreOutcome(old(View()), n, ok)
    {
      nodeState := nodeState[n := if ok then Success else Failed];
      pc := pc[n := Recording(ok)];
    }

    method RecordMetric(n: NodeId, ok: bool)
      modifies this`metrics, this`pc
      ensures View() == RecordOutcome(old(View()), n, ok)
    {
      if ok {
        metrics := metrics.(success := metrics.success + 1);
      } else {
        metrics := metrics.(failed := metrics.failed + 1);
      }
      pc := pc[n := Counting(ok)];
    }

    method CountDown(n: NodeId, ok: bool)
      modifies this`latch, this`pc
      ensures View() == CountOutcome(old(View()), n, ok)
    {
      latch := latch - 1;
      pc := pc[n := if ok then Decrementing(0) else Cancelling(0, [])];
    }

    /** fetch_sub on the counter of the i-th downstream node; true if it was the last. */
    method FetchSub(n: NodeId, i: nat) returns (last: bool)
      requires n in job.g.down && i < |job.g.down[n]| && job.g.down[n][i] in left
      modifies this`left, this`pc
      ensures View() == Decrement(job, old(View()), n, i)
      ensures last <==> pc[n] == Claiming(i)
      ensures !last ==> pc[n] == Decrementing(i + 1)
    {
      var v := job.g.down[n][i];
      last := left[v] == 1;
      left := left[v := left[v] - 1];
      pc := pc[n := if last then Claiming(i) else Decrementing(i + 1)];
    }

    /** The CAS of `scheduleNode`, for the i-th downstream node. */
    method TryClaim(n: NodeId, i: nat) returns (won: bool)
      requires n in job.g.down && i < |job.g.down[n]| && job.g.down[n][i] in nodeState
      modifies this`nodeState, this`pc
      ensures View() == Claim(job, old(View()), n, i)
      ensures pc[n] == if won then Enqueueing(i) else Decrementing(i + 1)
    {
      var v := job.g.down[n][i];
      won := nodeState[v].Pending?;
      if won {
        nodeState := nodeState[v := Running];
        pc := pc[n := Enqueueing(i)];
      } else {
        pc := pc[n := Decrementing(i + 1)];
      }
    }

    method PutInPool(n: NodeId, i: nat)
      requires n in job.g.down && i < |job.g.down[n]|
      modifies this`pc
      ensures View() == Enqueue(job, old(View()), n, i)
    {
      pc := pc[job.g.down[n][i] := Queued];
      pc := pc[n := Decrementing(i + 1)];
    }

    // ---------------------------------------------------------- executeNode

    lemma BeforeStep(n: NodeId)
      requires Good() && WorkerEnabled(View(), n)
      ensures Shape(job, View()) && Inv(job, WorkerStep(job, View(), n))
      ensures Measure(job, WorkerStep(job, View(), n)) < Measure(job, View())
    {
      hide Inv, Measure, WorkerStep;
      assert Shape(job, View()) by { GoodShape(); }
      StepOk(job, View(), Worker(n));
    }

    /** Worker `n` stands at `at`, and the engine is in a good state. */
    ghost predicate Stands(n: NodeId, at: Pc)
      reads this
    {
      Good() && n in pc && pc[n] == at
    }

    /** The stores and the metric, then the latch. */
    method RecordResult(n: NodeId, ok: bool)
      requires Stands(n, Storing(ok))
      modifies this
      ensures Stands(n, Counting(ok)) && job == old(job)
    {
      hide Inv, Measure, Shape, StartTask, Attempt1, CountOutcome, Decrement, Claim, Enqueue, Cancel, RecordCancel,
        CountCancel;
      Interfere(Worker(n));
      BeforeStep(n);
      StoreState(n, ok);
      Interfere(Worker(n));
      BeforeStep(n);
      RecordMetric(n, ok);
    }

    /** Storing, recording and counting the outcome. */
    method Conclude(n: NodeId, ok: bool)
      requires Stands(n, Storing(ok))
      modifies this
      ensures Stands(n, if ok then Decrementing(0) else Cancelling(0, []))
      ensures job == old(job)
    {
      hide Inv, Measure, Shape, StartTask, Attempt1, StoreOutcome, RecordOutcome, Decrement, Claim, Enqueue, Cancel,
        RecordCancel, CountCancel;
      RecordResult(n, ok);
      Interfere(Worker(n));
      BeforeStep(n);
      CountDown(n, ok);
    }

    /** Creating the instance and the retry loop. */
    method RunBody(n: NodeId) returns (ok: bool)
      requires Stands(n, Queued)
      modifies this
      ensures Stands(n, Storing(ok)) && job == old(job)
    {
      hide Inv, Measure, Shape, StoreOutcome, RecordOutcome, CountOutcome, Decrement, Claim, Enqueue, Cancel,
        RecordCancel, CountCancel;
      Interfere(Worker(n));
      BeforeStep(n);
      assert n in job.spec by { SpecOf(n); }
      if !job.spec[n].creates {
        pc := pc[n := Storing(false)];
        return false;
      }
      pc := pc[n := Attempting(0)];
      var k := 0;
      while k < MaxAttempts(job.spec[n].maxRetries)
        invariant Stands(n, Attempting(k)) && job == old(job) && n in job.spec
      {
        Interfere(Worker(n));
        BeforeStep(n);
        if AttemptResult(job.spec[n].body, k).Done? {
          pc := pc[n := Storing(true)];
          return true;
        }
        k := k + 1;
        pc := pc[n := Attempting(k)];
      }
      Interfere(Worker(n));
      BeforeStep(n);
      pc := pc[n := Storing(false)];
      ok := false;
    }

    lemma SpecOf(n: NodeId)
      requires Good() && n in pc
      ensures n in job.spec && n in job.g.down && n in nodeState
    {
      hide LocalInv, CauseInv, DoomInv, HoldInv, CounterInv, ClaimInv, EnqueueInv, ScanInv, ReadyInv, RunningInv,
        ClosureInv, LatchInv, ValidJob;
      assert Inv(job, View());
    }

    lemma DownOf(n: NodeId, i: nat)
      requires Good() && n in pc && n in job.g.down && i < |job.g.down[n]|
      ensures job.g.down[n][i] in left && job.g.down[n][i] in nodeState && job.g.down[n][i] in pc
    {
      hide LocalInv, CauseInv, DoomInv, HoldInv, CounterInv, ClaimInv, EnqueueInv, ScanInv, ReadyInv, RunningInv,
        ClosureInv, LatchInv, ValidJob;
      assert Inv(job, View());
    }

    /** `scheduleNode` for the i-th downstream node: CAS, then enqueue. */
    method ScheduleNode(n: NodeId, i: nat)
      requires Stands(n, Claiming(i)) && n in job.g.down && i < |job.g.down[n]|
      modifies this
      ensures Stands(n, Decrementing(i + 1)) && job == old(job)
    {
      hide Inv, Measure, Shape, StartTask, Attempt1, StoreOutcome, RecordOutcome, CountOutcome, Decrement, Cancel,
        RecordCancel, CountCancel;
      Interfere(Worker(n));
      BeforeStep(n);
      DownOf(n, i);
      var won := TryClaim(n, i);
      if won {
        Interfere(Worker(n));
        BeforeStep(n);
        PutInPool(n, i) by { DownOf(n, i); }
      }
    }

    /** One turn of the loop after a success: decrement, and schedule what became ready. */
    method NotifyNext(n: NodeId, i: nat)
      requires Stands(n, Decrementing(i)) && n in job.g.down && i < |job.g.down[n]|
      modifies this
      ensures Stands(n, Decrementing(i + 1)) && job == old(job)
    {
      hide Inv, Measure, Shape, StartTask, Attempt1, StoreOutcome, RecordOutcome, CountOutcome, Claim, Enqueue,
        Cancel, RecordCancel, CountCancel;
      Interfere(Worker(n));
      BeforeStep(n);
      DownOf(n, i);
      var last := FetchSub(n, i);
      if last {
        ScheduleNode(n, i);
      }
    }

    /** The downstream loop after a success. */
    method ScheduleDownstream(n: NodeId)
      requires Stands(n, Decrementing(0)) && n in job.g.down
      modifies this
      ensures Stands(n, Finished(true)) && job == old(job)
    {
      hide Inv, Measure, Shape, StartTask, Attempt1, StoreOutcome, RecordOutcome, CountOutcome, Claim, Enqueue,
        Cancel, RecordCancel, CountCancel;
      var i := 0;
      while i < |job.g.down[n]|
        invariant job == old(job) && i <= |job.g.down[n]| && Stands(n, Decrementing(i))
      {
        NotifyNext(n, i);
        i := i + 1;
      }
      Interfere(Worker(n));
      BeforeStep(n);
      pc := pc[n := Finished(true)];
    }

    // ---------------------------------------------------------- cancelNodeAndDownstream

    lemma StackOf(n: NodeId, i: nat, stack: seq<NodeId>)
      requires Stands(n, Cancelling(i, stack)) && stack != []
      ensures stack[|stack| - 1] in nodeState && stack[|stack| - 1] in job.g.down && n in job.g.down
        && i <= |job.g.down[n]|
    {
      hide LocalInv, CauseInv, DoomInv, HoldInv, CounterInv, ClaimInv, EnqueueInv, ScanInv, ReadyInv, RunningInv,
        ClosureInv, LatchInv, ValidJob;
      assert Inv(job, View());
      assert PcInRange(job, n, pc[n]);
    }

    /** The iterative cascade from the node just put on the stack. */
    method CancelNodeAndDownstream(n: NodeId, i: nat, start: NodeId)
      requires Stands(n, Cancelling(i, [start]))
      modifies this
      ensures Stands(n, Cancelling(i, [])) && job == old(job)
    {
      hide Inv, Measure, Shape, StartTask, Attempt1, StoreOutcome, RecordOutcome, CountOutcome, Decrement, Claim,
        Enqueue, RecordCancel, CountCancel;
      var stack := [start];
      while stack != []
        invariant Stands(n, Cancelling(i, stack)) && job == old(job)
        decreases Left()
      {
        stack := CascadeTurn(n, i, stack);
      }
    }

    /** The steps the whole engine has left at most. */
    ghost function Left(): nat
      reads this
    {
      if Shape(job, View()) then Measure(job, View()) else 0
    }

    lemma LeftIs()
      requires Good()
      ensures Shape(job, View()) && Left() == Measure(job, View())
    {
      GoodShape();
      hide Inv, Measure, Shape;
    }

    method PopAndCas(n: NodeId, i: nat, stack: seq<NodeId>) returns (won: bool)
      requires n in job.g.down && i <= |job.g.down[n]| && stack != [] && stack[|stack| - 1] in nodeState
      modifies this`nodeState, this`pc
      ensures View() == Cancel(job, old(View()), n, i, stack)
      ensures pc[n] == if won then RecordingCancel(i, stack[..|stack| - 1], stack[|stack| - 1])
                       else Cancelling(i, stack[..|stack| - 1])
    {
      var v := stack[|stack| - 1];
      won := nodeState[v].Pending?;
      if won {
        nodeState := nodeState[v := Cancelled];
        pc := pc[n := RecordingCancel(i, stack[..|stack| - 1], v)];
      } else {
        pc := pc[n := Cancelling(i, stack[..|stack| - 1])];
      }
    }

    method RecordCancelled(n: NodeId, i: nat, rest: seq<NodeId>, v: NodeId)
      modifies this`metrics, this`pc
      ensures View() == RecordCancel(old(View()), n, i, rest, v)
    {
      metrics := metrics.(cancelled := metrics.cancelled + 1);
      pc := pc[n := CountingCancel(i, rest, v)];
    }

    method CountAndPush(n: NodeId, i: nat, rest: seq<NodeId>, v: NodeId) returns (stack: seq<NodeId>)
      requires v in job.g.down
      modifies this`latch, this`pc
      ensures View() == CountCancel(job, old(View()), n, i, rest, v)
      ensures pc[n] == Cancelling(i, stack)
    {
      latch := latch - 1;
      stack := rest + job.g.down[v];
      pc := pc[n := Cancelling(i, stack)];
    }

    /** Pop, CAS, record, count down, push. */
    method CascadeTurn(n: NodeId, i: nat, stack: seq<NodeId>) returns (rest: seq<NodeId>)
      requires Stands(n, Cancelling(i, stack)) && stack != []
      modifies this
      ensures Stands(n, Cancelling(i, rest)) && job == old(job)
      ensures Left() < old(Left())
    {
      hide Inv, Measure, Shape;
      LeftIs();
      Interfere(Worker(n));
      BeforeStep(n);
      StackOf(n, i, stack);
      rest := stack[..|stack| - 1];
      var won := PopAndCas(n, i, stack);
      if won {
        rest := Cascade(n, i, rest, stack[|stack| - 1]);
      }
      LeftIs();
    }

    /** The second half of a turn, for a node just cancelled. */
    method Cascade(n: NodeId, i: nat, rest: seq<NodeId>, v: NodeId) returns (stack: seq<NodeId>)
      requires Stands(n, RecordingCancel(i, rest, v)) && v in job.g.down
      modifies this
      ensures Stands(n, Cancelling(i, stack)) && job == old(job)
      ensures Left() <= old(Left())
    {
      hide Inv, Measure, Shape;
      LeftIs();
      Interfere(Worker(n));
      BeforeStep(n);
      RecordCancelled(n, i, rest, v);
      Interfere(Worker(n));
      BeforeStep(n);
      stack := CountAndPush(n, i, rest, v);
      LeftIs();
    }

    /** One turn of the loop after a failure. */
    method CancelNext(n: NodeId, i: nat)
      requires Stands(n, Cancelling(i, [])) && n in job.g.down && i < |job.g.down[n]|
      modifies this
      ensures Stands(n, Cancelling(i + 1, [])) && job == old(job)
    {
      hide Inv, Measure, Shape, StartTask, Attempt1, StoreOutcome, RecordOutcome, CountOutcome, Decrement, Claim,
        Enqueue, RecordCancel, CountCancel;
      Interfere(Worker(n));
      BeforeStep(n);
      pc := pc[n := Cancelling(i + 1, [job.g.down[n][i]])];
      CancelNodeAndDownstream(n, i + 1, job.g.down[n][i]);
    }

    /** The downstream loop after a failure. */
    method CancelDownstream(n: NodeId)
      requires Stands(n, Cancelling(0, [])) && n in job.g.down
      modifies this
      ensures Stands(n, Finished(false)) && job == old(job)
    {
      hide Inv, Measure, Shape, StartTask, Attempt1, StoreOutcome, RecordOutcome, CountOutcome, Decrement, Claim,
        Enqueue, RecordCancel, CountCancel;
      var i := 0;
      while i < |job.g.down[n]|
        invariant job == old(job) && i <= |job.g.down[n]| && Stands(n, Cancelling(i, []))
      {
        CancelNext(n, i);
        i := i + 1;
      }
      Interfere(Worker(n));
      BeforeStep(n);
      pc := pc[n := Finished(false)];
    }

    /** One task of the pool.  Whatever the other threads do in between, it ends with its
        node in the state the graph determines. */
    method ExecuteNode(n: NodeId)
      requires Stands(n, Queued) && n in job.g.down && n in job.spec
      modifies this
      ensures Good() && job == old(job)
      ensures n in pc && pc[n].Finished? && n in nodeState && nodeState[n] == Outcome(job, n)
    {
      hide Inv, Measure, Shape, Outcome;
      var ok := RunBody(n);
      Conclude(n, ok);
      if ok {
        ScheduleDownstream(n);
      } else {
        CancelDownstream(n);
      }
      FinishedOutcome(n);
    }

    lemma FinishedOutcome(n: NodeId)
      requires Good() && n in pc && pc[n].Finished? && n in job.spec
      ensures n in nodeState && nodeState[n] == Outcome(job, n)
    {
      hide LocalInv, CauseInv, DoomInv, HoldInv, CounterInv, ClaimInv, EnqueueInv, ScanInv, ReadyInv, RunningInv,
        ClosureInv, LatchInv, ValidJob, Outcome;
      assert Inv(job, View());
      FinalIsOutcome(job, View());
      LocalAt(job, View(), n);
    }

    // ---------------------------------------------------------- run and waitForCompletion

    /** The engine as the last successful load, or the last completed run, left it.  A run
        may be started only when no handler of an earlier one is in flight. */
    ghost predicate Loaded()
      reads this
    {
      && WellFormed(job.g) && Acyclic(job.g)
      && (forall n :: n in job.spec <==> n in job.g.nodes)
      && nodeState.Keys == job.g.down.Keys && left.Keys == job.g.down.Keys && pc.Keys == job.g.down.Keys
      && (!running ==> main.Idle? && WorkersDone(View()))
    }

    /** `run`: refuses an empty configuration and a run in progress; otherwise resets every
        node and schedules the roots while earlier roots already execute. */
    method Run() returns (r: RunResult)
      requires Loaded()
      modifies this
      ensures r == if old(job.g.nodes) == [] then NoNodes else if old(running) then InProgress else RunStarted
      ensures r != RunStarted ==> View() == old(View()) && job == old(job)
      ensures r == RunStarted ==> Good() && main.Waiting? && job == old(job).(base := old(metrics))
    {
      hide Inv, WellFormed, Acyclic, WorkersDone;
      if job.g.nodes == [] {
        return NoNodes;
      }
      if running {
        return InProgress;
      }
      job := job.(base := metrics);
      Reset();
      Scan();
      r := RunStarted;
    }

    method Reset()
      requires Loaded() && !running && job.g.nodes != [] && job.base == metrics
      modifies this
      ensures Good() && main == Scanning(0) && job == old(job)
    {
      hide ResetInv, Inv, WellFormed, Acyclic, WorkersDone;
      Begin();
      var i := 0;
      while i < |job.g.nodes|
        invariant job == old(job) && i <= |job.g.nodes| && main == Resetting(i) && ResetInv(job, View())
      {
        ResetOne(i);
        i := i + 1;
      }
      ResetDone(job, View());
      main := Scanning(0);
    }

    /** A new latch and an empty pool. */
    method Begin()
      requires Loaded() && !running && job.g.nodes != [] && job.base == metrics
      modifies this
      ensures ResetInv(job, View()) && main == Resetting(0) && job == old(job)
    {
      StartResets(job, View());
      hide ResetInv, WellFormed, Acyclic;
      running := true;
      latch := |job.g.nodes|;
      pc := map n | n in pc :: Absent;
      main := Resetting(0);
    }

    /** The stores that reset the i-th node. */
    method ResetOne(i: nat)
      requires ResetInv(job, View()) && main == Resetting(i) && i < |job.g.nodes|
      modifies this`left, this`nodeState, this`main
      ensures ResetInv(job, View()) && main == Resetting(i + 1)
    {
      hide ResetInv;
      assert View().main.i == i;
      InDeps(i);
      ResetStep(job, View());
      var n := job.g.nodes[i];
      left := left[n := |job.g.deps[n]|];
      nodeState := nodeState[n := Pending];
      main := Resetting(i + 1);
    }

    lemma InDeps(i: nat)
      requires ResetInv(job, View()) && i < |job.g.nodes|
      ensures job.g.nodes[i] in job.g.deps
    {
    }

    lemma BeforeMain()
      requires Good() && MainEnabled(View())
      ensures Shape(job, View()) && Inv(job, MainStep(job, View()))
    {
      hide Inv, Measure, MainStep;
      assert Shape(job, View()) by { GoodShape(); }
      StepOk(job, View(), Main);
    }

    lemma NodeOf(i: nat)
      requires Shape(job, View()) && i < |job.g.nodes|
      ensures job.g.nodes[i] in job.g.deps && job.g.nodes[i] in nodeState
    {
    }

    method Scan()
      requires Good() && main == Scanning(0)
      modifies this
      ensures Good() && main.Waiting? && job == old(job)
    {
      hide Inv, Measure, Shape;
      var i := 0;
      while i < |job.g.nodes|
        invariant job == old(job) && i <= |job.g.nodes| && main == Scanning(i) && Good()
      {
        Interfere(Main);
        BeforeMain();
        NodeOf(i);
        var n := job.g.nodes[i];
        if job.g.deps[n] == [] && nodeState[n].Pending? {
          nodeState := nodeState[n := Running];
          main := EnqueueingRoot(i);
          Interfere(Main);
          BeforeMain();
          pc := pc[n := Queued];
        }
        i := i + 1;
        main := Scanning(i);
      }
      Interfere(Main);
      BeforeMain();
      main := Waiting;
    }

    /** `waitForCompletion`: while the latch is above 0 some task of the pool moves on,
        whichever the pool picks; the wait ends, and then every node shows its outcome. */
    method WaitForCompletion()
      requires Good() && main.Waiting?
      modifies this
      ensures Good() && main.Idle? && !running && latch == 0 && job == old(job)
      ensures forall n :: n in job.spec ==> n in nodeState && nodeState[n] == Outcome(job, n)
      ensures metrics == Metrics(job.base.success + |Ending(job, Success)|,
                                 job.base.failed + |Ending(job, Failed)|,
                                 job.base.cancelled + |Ending(job, Cancelled)|)
    {
      hide Inv, Measure, Shape, Outcome, Ending;
      while latch != 0
        invariant Good() && main.Waiting? && job == old(job)
        decreases Left()
      {
        LeftIs();
        SomeWorker();
        var n :| n in pc && WorkerEnabled(View(), n);
        BeforeStep(n);
        OthersKeepPlace(job, View(), Worker(n), Main);
        Become(WorkerStep(job, View(), n));
        LeftIs();
      }
      BeforeMain();
      running := false;
      main := Idle;
      EndState(job, View());
    }

    lemma SomeWorker()
      requires Good() && main.Waiting? && latch != 0
      ensures exists n :: n in pc && WorkerEnabled(View(), n)
    {
      hide Inv;
      if forall n :: n in pc ==> !WorkerEnabled(View(), n) {
        DoneIsCounted(job, View());
        assert false;
      }
    }

    /** What the pool still has to do when `waitForCompletion` returns: handlers that have
        counted down are in their downstream loops.  They finish, in any order, without
        changing anything the run has shown, and then `run` may be called again. */
    method LetHandlersFinish()
      requires Good() && main.Idle? && !running && latch == 0
      modifies this
      ensures Loaded() && !running && job == old(job)
      ensures SameResult(old(View()), View())
    {
      hide Inv, Measure, Shape, SameResult, Loaded;
      SameItself(View());
      while exists n :: n in pc && WorkerEnabled(View(), n)
        invariant Good() && main.Idle? && !running && job == old(job)
        invariant latch == 0 && SameResult(old(View()), View())
        decreases Left()
      {
        var n :| n in pc && WorkerEnabled(View(), n);
        LateStep(n);
        SameThrough(old(View()), View(), WorkerStep(job, View(), n));
        Become(WorkerStep(job, View(), n));
      }
      DoneIsLoaded();
    }

    lemma LateStep(n: NodeId)
      requires Good() && main.Idle? && latch == 0 && WorkerEnabled(View(), n)
      ensures Shape(job, View())
      ensures var s := WorkerStep(job, View(), n);
        && Inv(job, s) && s.main.Idle? && s.running == running && s.latch == 0 && SameResult(View(), s)
        && Shape(job, s) && Measure(job, s) < Left()
    {
      hide Inv, Measure, Shape, WorkerStep, SameResult;
      BeforeStep(n);
      LeftIs();
      OthersKeepPlace(job, View(), Worker(n), Main);
      WorkerAfterwards(job, View(), n);
      SameLatch(View(), WorkerStep(job, View(), n));
      assert Shape(job, WorkerStep(job, View(), n)) by { SchedulerForward.InvShape(job, WorkerStep(job, View(), n)); }
    }

    lemma DoneIsLoaded()
      requires Good() && main.Idle? && forall n :: n in pc ==> !WorkerEnabled(View(), n)
      ensures Loaded()
    {
      hide LocalInv, CauseInv, DoomInv, HoldInv, CounterInv, ClaimInv, EnqueueInv, ScanInv, ReadyInv, RunningInv,
        ClosureInv, LatchInv, PcInRange, WellFormed, Acyclic;
    }
  }

  /** A client that runs one configuration twice.  Both runs show the same states, and the
      second adds to the metrics what the first did. */
  method RunTwice(e: WorkflowEngine)
    requires e.Loaded() && !e.running && e.job.g.nodes != []
    modifies e
    ensures e.Loaded() && !e.running
    ensures forall n :: n in old(e.job).spec ==> n in e.nodeState && e.nodeState[n] == Outcome(old(e.job), n)
    ensures e.metrics == Metrics(old(e.metrics.success) + 2 * |Ending(old(e.job), Success)|,
                                 old(e.metrics.failed) + 2 * |Ending(old(e.job), Failed)|,
                                 old(e.metrics.cancelled) + 2 * |Ending(old(e.job), Cancelled)|)
  {
    hide Inv, Measure, Shape, Outcome, Ending, WellFormed, Acyclic, WorkersDone;
    RunToEnd(e);
    RunToEnd(e);
  }

  /** `run`, then `waitForCompletion`, then the handlers that are left. */
  method RunToEnd(e: WorkflowEngine)
    requires e.Loaded() && !e.running && e.job.g.nodes != []
    modifies e
    ensures e.Loaded() && !e.running && e.job == old(e.job).(base := old(e.metrics))
    ensures forall n :: n in old(e.job).spec ==> n in e.nodeState && e.nodeState[n] == Outcome(old(e.job), n)
    ensures forall n :: n in old(e.job).spec ==> Outcome(e.job, n) == Outcome(old(e.job), n)
    ensures forall st :: Ending(e.job, st) == Ending(old(e.job), st)
    ensures e.metrics == Metrics(old(e.metrics.success) + |Ending(old(e.job), Success)|,
                                 old(e.metrics.failed) + |Ending(old(e.job), Failed)|,
                                 old(e.metrics.cancelled) + |Ending(old(e.job), Cancelled)|)
  {
    hide Inv, Measure, Shape, Outcome, Ending, WellFormed, Acyclic, WorkersDone;
    var _ := e.Run();
    e.WaitForCompletion();
    e.LetHandlersFinish();
    forall n | n in old(e.job).spec ensures Outcome(e.job, n) == Outcome(old(e.job), n) {
      SameOutcomes(old(e.job), e.job, n);
    }
    forall st ensures Ending(e.job, st) == Ending(old(e.job), st) {
      SameEndings(old(e.job), e.job, st);
    }
  }

  datatype RunResult = RunStarted | NoNodes | InProgress
}
