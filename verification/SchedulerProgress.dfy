/** Every run can go on until it is complete, and every run is finite. */
module SchedulerProgress {
  import opened DependencyGraph
  import opened SchedulerModel
  import opened SchedulerInvariant
  import opened SchedulerOutcomeSteps
  import opened SchedulerRuns

  // ------------------------------------------------------------ progress

  ghost predicate WorkersDone(s: State) {
    forall n :: n in s.pc ==> s.pc[n].Absent? || s.pc[n].Finished?
  }

  ghost predicate ScanDone(s: State) {
    s.main.Waiting? || s.main.Idle?
  }

  lemma NobodyActs(j: Job, s: State)
    requires Shape(j, s) && WorkersDone(s) && ScanDone(s)
    ensures forall w, v :: !Claims(j, s, w, v) && !Enqueues(j, s, w, v)
    ensures forall w, v :: !OnStack(s, w, v)
    ensures forall v :: !Held(s, v)
    ensures forall u, v :: !InOwnLoop(j, s, u, v)
    ensures forall k :: !AheadOfScan(s, k)
  {
    hide PcInRange;
  }

  lemma DoneNotRunning(j: Job, s: State, v: NodeId)
    requires Shape(j, s) && LocalInv(j, s) && RunningInv(j, s) && WorkersDone(s) && ScanDone(s) && v in s.pc
    ensures !s.nodeState[v].Running?
    ensures s.nodeState[v].Success? ==> s.pc[v] == Finished(true)
  {
    NobodyActs(j, s);
    LocalAt(j, s, v);
    assert s.nodeState[v].Running? && s.pc[v].Absent? ==> BeingEnqueued(j, s, v);
  }

  /** With all workers done, a node whose dependencies are all past Pending is past
      Pending itself. */
  lemma DoneAfterDeps(j: Job, s: State, v: NodeId)
    requires ValidJob(j) && Shape(j, s) && LocalInv(j, s) && CounterInv(j, s)
    requires ReadyInv(j, s) && RunningInv(j, s) && ClosureInv(j, s)
    requires WorkersDone(s) && ScanDone(s) && v in s.pc
    requires forall u :: u in j.g.deps[v] ==> u in s.pc && !s.nodeState[u].Pending?
    ensures !s.nodeState[v].Pending?
  {
    hide ClosureInv, ReadyInv, CounterInv, RunningInv, LocalInv;
    if u :| u in j.g.deps[v] && Broken(s.nodeState[u]) {
      DoneAfterBroken(j, s, u, v);
    } else {
      forall u | u in j.g.deps[v] ensures u in s.pc && s.pc[u] == Finished(true) {
        DoneNotRunning(j, s, u);
      }
      DoneRemaining(j, s, v);
      DoneIsClaimed(j, s, v);
    }
  }

  lemma EdgeInDown(j: Job, u: NodeId, v: NodeId)
    requires ValidJob(j) && v in j.g.deps && u in j.g.deps[v]
    ensures u in j.g.down && v in j.g.down[u]
  {
    hide Acyclic, Entries;
  }

  /** A dependent of a broken node cannot have stayed Pending. */
  lemma DoneAfterBroken(j: Job, s: State, u: NodeId, v: NodeId)
    requires ValidJob(j) && Shape(j, s) && ClosureInv(j, s) && WorkersDone(s) && ScanDone(s)
    requires v in s.pc && u in j.g.deps[v] && u in s.pc && Broken(s.nodeState[u])
    ensures !s.nodeState[v].Pending?
  {
    hide ValidJob, Ahead, PcInRange;
    NobodyActs(j, s);
    EdgeInDown(j, u, v);
    assert Covered(j, s, u, v);
  }

  /** Neither can a node whose counter has reached 0. */
  lemma DoneIsClaimed(j: Job, s: State, v: NodeId)
    requires Shape(j, s) && CounterInv(j, s) && ReadyInv(j, s) && WorkersDone(s) && ScanDone(s)
    requires v in s.pc && Remaining(j, s.pc, v) == {}
    ensures !s.nodeState[v].Pending?
  {
    NobodyActs(j, s);
    hide Remaining;
    assert s.left[v] == |Remaining(j, s.pc, v)|;
    assert s.nodeState[v].Pending? ==> Claimable(j, s, v);
  }

  lemma FinishedDecremented(j: Job, u: NodeId)
    requires u in j.g.down
    ensures Decremented(j, u, Finished(true)) == |j.g.down[u]|
  {
  }

  lemma DoneRemaining(j: Job, s: State, v: NodeId)
    requires ValidJob(j) && Shape(j, s) && v in s.pc
    requires forall u :: u in j.g.deps[v] ==> u in s.pc && s.pc[u] == Finished(true)
    ensures Remaining(j, s.pc, v) == {}
  {
    hide Decremented, PcInRange, Acyclic, Entries;
    forall u | u in j.g.down && v in j.g.down[u] ensures Decremented(j, u, s.pc[u]) == |j.g.down[u]| {
      assert u in j.g.deps[v];
      FinishedDecremented(j, u);
    }
    assert s.pc.Keys == j.g.down.Keys;
  }

  lemma NonePending(j: Job, s: State)
    requires Inv(j, s) && WorkersDone(s) && ScanDone(s)
    ensures forall v :: v in s.pc ==> !s.nodeState[v].Pending?
  {
    hide LocalInv, CauseInv, DoomInv, HoldInv, CounterInv, ClaimInv, EnqueueInv, ScanInv, ReadyInv, RunningInv,
      ClosureInv, LatchInv, WellFormed, Acyclic, Remaining, WorkersDone, ScanDone;
    var pending := set v | v in s.pc && s.nodeState[v].Pending?;
    if pending != {} {
      var v := AcyclicHasSource(j.g, pending);
      forall u | u in j.g.deps[v] ensures u in s.pc && !s.nodeState[u].Pending? {
        assert Edge(j.g, u, v);
        DepInTables(j, u, v);
      }
      DoneAfterDeps(j, s, v);
      assert false;
    }
    forall v | v in s.pc ensures !s.nodeState[v].Pending? {
      assert v !in pending;
    }
  }

  /** When no worker has a step left, no node is left behind. */
  lemma DoneIsCounted(j: Job, s: State)
    requires Inv(j, s) && WorkersDone(s) && ScanDone(s)
    ensures s.latch == 0
  {
    hide LocalInv, CauseInv, DoomInv, HoldInv, CounterInv, ClaimInv, EnqueueInv, ScanInv, ReadyInv, RunningInv,
      ClosureInv, ValidJob;
    NonePending(j, s);
    NobodyActs(j, s);
    forall v | v in s.pc ensures !Uncounted(s, v) {
      DoneNotRunning(j, s, v);
    }
    hide Uncounted;
    assert UncountedSet(s) == {};
  }

  lemma DepInTables(j: Job, u: NodeId, v: NodeId)
    requires ValidJob(j) && v in j.g.deps && u in j.g.deps[v]
    ensures u in j.g.down
  {
  }

  /** The end of a run: latch at 0, `running` cleared, no handler in flight. */
  ghost predicate Complete(s: State) {
    s.latch == 0 && s.main.Idle? && !s.running && WorkersDone(s)
  }

  /** Progress.  In every reachable state some actor has a step, or the run is complete;
      so no interleaving can get stuck with the latch above 0. */
  lemma Progress(j: Job, s: State)
    requires Reachable(j, s)
    ensures Complete(s) || exists a :: Enabled(s, a)
  {
    hide Inv, RunInv, Reachable, Shape;
    ReachableInv(j, s);
    ReachableFlag(j, s);
    if (forall a :: !Enabled(s, a)) {
      forall n | n in s.pc ensures s.pc[n].Absent? || s.pc[n].Finished? {
        assert !Enabled(s, Worker(n));
      }
      assert !Enabled(s, Main);
      assert Inv(j, s) by { NotResetting(j, s); }
      DoneIsCounted(j, s);
    }
  }

  lemma NotResetting(j: Job, s: State)
    requires RunInv(j, s) && !Enabled(s, Main)
    ensures Inv(j, s)
  {
  }
}
