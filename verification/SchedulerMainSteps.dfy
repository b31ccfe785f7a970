/** The main thread's loop over the root nodes. */
module SchedulerMainSteps {
  import opened DependencyGraph
  import opened SchedulerModel
  import opened SchedulerInvariant
  import opened SchedulerFrames
  import opened SchedulerSuccessSteps

  lemma NoEntryNamesRoot(j: Job, v: NodeId)
    requires ValidJob(j) && v in j.g.deps && Root(j, v)
    ensures forall u, i :: u in j.g.down && 0 <= i < |j.g.down[u]| ==> j.g.down[u][i] != v
  {
    hide Entries, Acyclic, Distinct;
    forall u, i | u in j.g.down && 0 <= i < |j.g.down[u]| ensures j.g.down[u][i] != v {
      assert u in j.g.deps[j.g.down[u][i]];
    }
  }

  /** Claims and enqueues are on downstream entries. */
  lemma ClaimsName(j: Job, s: State, v: NodeId)
    requires Shape(j, s) && forall u, i :: u in j.g.down && 0 <= i < |j.g.down[u]| ==> j.g.down[u][i] != v
    ensures forall w :: !Claims(j, s, w, v) && !Enqueues(j, s, w, v)
  {
  }

  /** A root is nobody's downstream entry, so no worker claims or enqueues it. */
  lemma RootIsFree(j: Job, s: State, v: NodeId)
    requires ValidJob(j) && Shape(j, s) && v in s.pc && Root(j, v)
    ensures forall w :: !Claims(j, s, w, v) && !Enqueues(j, s, w, v)
    ensures Remaining(j, s.pc, v) == {}
  {
    NoEntryNamesRoot(j, v);
    hide ValidJob, WellFormed, Acyclic, Decremented, Root, PcInRange;
    ClaimsName(j, s, v);
    assert s.pc.Keys == j.g.down.Keys;
  }

  // ------------------------------------------------------------ moves of the scan alone

  /** The main thread moves on without touching a root. */
  ghost predicate ScanMove(j: Job, s: State, s': State)
    requires Shape(j, s)
  {
    && s' == s.(main := s'.main, running := s'.running)
    && MainInRange(j, s'.main) && !s.main.EnqueueingRoot? && !s'.main.EnqueueingRoot?
    && (forall k :: 0 <= k < |j.g.nodes| && Root(j, j.g.nodes[k]) ==> (AheadOfScan(s, k) <==> AheadOfScan(s', k)))
  }

  lemma ScanMoveScan(j: Job, s: State, s': State)
    requires Shape(j, s) && ScanMove(j, s, s') && ScanInv(j, s)
    ensures Shape(j, s') && ScanInv(j, s')
  {
  }

  lemma ScanMoveReady(j: Job, s: State, s': State)
    requires Shape(j, s) && ScanMove(j, s, s') && Shape(j, s') && ReadyInv(j, s) && SameClaims(j, s, s')
    ensures ReadyInv(j, s')
  {
    hide Claims;
    forall v | v in s.pc && s.nodeState[v].Pending? && s.left[v] == 0 ensures Claimable(j, s', v) {
      assert Claimable(j, s, v);
      if w :| Claims(j, s, w, v) {
        assert Claims(j, s', w, v);
      }
    }
  }

  lemma ScanMoveKeepsInv(j: Job, s: State, s': State)
    requires Inv(j, s) && ScanMove(j, s, s') && !s'.main.Resetting?
    ensures Inv(j, s')
  {
    hide LocalInv, CauseInv, DoomInv, HoldInv, CounterInv, ClaimInv, EnqueueInv, ScanInv, ReadyInv, RunningInv,
      ClosureInv, LatchInv, ValidJob, SameClaims, SameEnqueues, BesideLoop;
    ScanMoveScan(j, s, s');
    ClaimsAfterMove(j, s, s');
    EnqueuesAfterMove(j, s, s');
    LoopMoveBeside(j, s, s');
    BesideFrames(j, s, s');
    ScanMoveReady(j, s, s');
    ScanMoveRest(j, s, s');
  }

  lemma ScanMoveRest(j: Job, s: State, s': State)
    requires Shape(j, s) && ScanMove(j, s, s') && Shape(j, s') && SameClaims(j, s, s') && SameEnqueues(j, s, s')
    requires LocalInv(j, s) && CauseInv(j, s) && CounterInv(j, s) && ClaimInv(j, s) && EnqueueInv(j, s)
      && RunningInv(j, s)
    ensures LocalInv(j, s') && CauseInv(j, s') && CounterInv(j, s') && ClaimInv(j, s') && EnqueueInv(j, s')
      && RunningInv(j, s')
  {
    hide CauseInv, CounterInv, ClaimInv, EnqueueInv, RunningInv, SameClaims, SameEnqueues;
    forall x | x in s.pc ensures LocalOk(j, s', x) {
      assert LocalOk(j, s, x);
    }
    CauseFrame(j, s, s');
    CounterFrame(j, s, s');
    ClaimFrame(j, s, s');
    EnqueueFrame(j, s, s');
    ScanMoveRunning(j, s, s');
  }

  lemma ScanMoveRunning(j: Job, s: State, s': State)
    requires Shape(j, s) && ScanMove(j, s, s') && Shape(j, s') && SameEnqueues(j, s, s') && RunningInv(j, s)
    ensures RunningInv(j, s')
  {
    hide Enqueues;
    forall v | v in s.pc && s.nodeState[v].Running? && s.pc[v].Absent? ensures BeingEnqueued(j, s', v) {
      assert BeingEnqueued(j, s, v);
      var w :| Enqueues(j, s, w, v);
      assert Enqueues(j, s', w, v);
    }
  }

  // ------------------------------------------------------------ claiming a root

  ghost predicate AtRoot(j: Job, s: State, i: nat, v: NodeId)
    requires Shape(j, s)
  {
    && s.main == Scanning(i) && i < |j.g.nodes| && j.g.nodes[i] == v && v in s.pc && Root(j, v)
    && s.nodeState[v].Pending? && s.pc[v].Absent?
    && (forall k :: 0 <= k < |j.g.nodes| && k != i ==> j.g.nodes[k] != v)
  }

  /** The main thread's CAS on a root never fails. */
  lemma RootFinds(j: Job, s: State, i: nat)
    requires ValidJob(j) && Shape(j, s) && ScanInv(j, s)
    requires s.main == Scanning(i) && i < |j.g.nodes| && Root(j, j.g.nodes[i])
    ensures AtRoot(j, s, i, j.g.nodes[i])
  {
    assert AheadOfScan(s, i);
  }

  lemma RootShape(j: Job, s: State, s': State, i: nat, v: NodeId)
    requires Shape(j, s) && AtRoot(j, s, i, v) && s' == ScanRoot(j, s, i)
    ensures Shape(j, s') && LoopMove(s, s') && s'.pc == s.pc && s'.main == EnqueueingRoot(i)
  {
  }

  lemma RootLocal(j: Job, s: State, s': State, i: nat, v: NodeId)
    requires Shape(j, s) && AtRoot(j, s, i, v) && s' == ScanRoot(j, s, i) && Shape(j, s') && LocalInv(j, s)
    ensures LocalInv(j, s')
  {
    forall x | x in s.pc && x != v ensures LocalOk(j, s', x) {
      assert LocalOk(j, s, x);
    }
  }

  lemma RootClaims(j: Job, s: State, s': State, i: nat, v: NodeId)
    requires Shape(j, s) && AtRoot(j, s, i, v) && s' == ScanRoot(j, s, i) && Shape(j, s')
    requires ClaimInv(j, s) && EnqueueInv(j, s) && SameClaims(j, s, s') && SameEnqueues(j, s, s')
    requires s.left[v] == 0 && forall w :: !Claims(j, s, w, v) && !Enqueues(j, s, w, v)
    ensures ClaimInv(j, s') && EnqueueInv(j, s')
  {
    hide Claims, Enqueues, Root;
  }

  lemma RootScan(j: Job, s: State, s': State, i: nat, v: NodeId)
    requires Shape(j, s) && AtRoot(j, s, i, v) && s' == ScanRoot(j, s, i) && Shape(j, s') && ScanInv(j, s)
    ensures ScanInv(j, s')
  {
  }

  lemma RootReady(j: Job, s: State, s': State, i: nat, v: NodeId)
    requires Shape(j, s) && AtRoot(j, s, i, v) && s' == ScanRoot(j, s, i) && Shape(j, s')
    requires ReadyInv(j, s) && SameClaims(j, s, s')
    ensures ReadyInv(j, s')
  {
    hide Claims;
    forall x | x in s.pc && s'.nodeState[x].Pending? && s'.left[x] == 0 ensures Claimable(j, s', x) {
      assert Claimable(j, s, x);
      if w :| Claims(j, s, w, x) {
        assert Claims(j, s', w, x);
      }
    }
  }

  lemma RootRunning(j: Job, s: State, s': State, i: nat, v: NodeId)
    requires Shape(j, s) && AtRoot(j, s, i, v) && s' == ScanRoot(j, s, i) && Shape(j, s')
    requires RunningInv(j, s) && SameEnqueues(j, s, s')
    ensures RunningInv(j, s')
  {
    hide Enqueues;
    forall x | x in s.pc && s'.nodeState[x].Running? && s'.pc[x].Absent? ensures BeingEnqueued(j, s', x) {
      if x != v {
        assert BeingEnqueued(j, s, x);
        var w :| Enqueues(j, s, w, x);
        assert Enqueues(j, s', w, x);
      }
    }
  }

  lemma RootCause(j: Job, s: State, s': State, i: nat, v: NodeId)
    requires Shape(j, s) && AtRoot(j, s, i, v) && s' == ScanRoot(j, s, i) && Shape(j, s') && CauseInv(j, s)
    ensures CauseInv(j, s')
  {
    hide CauseInv;
    assert DepsSucceeded(j, s, v);
    hide DepsSucceeded;
    CauseFrame(j, s, s');
  }

  lemma RootStep(j: Job, s: State, i: nat)
    requires Inv(j, s) && s.main == Scanning(i) && i < |j.g.nodes|
    requires j.g.nodes[i] in j.g.deps && j.g.nodes[i] in s.nodeState && Root(j, j.g.nodes[i])
    ensures Inv(j, ScanRoot(j, s, i))
  {
    hide LocalInv, CauseInv, DoomInv, HoldInv, CounterInv, ClaimInv, EnqueueInv, ScanInv, ReadyInv, RunningInv,
      ClosureInv, LatchInv, ValidJob, SameClaims, SameEnqueues, BesideLoop, LoopMove, AtRoot, ScanRoot;
    var s' := ScanRoot(j, s, i);
    var v := j.g.nodes[i];
    RootFinds(j, s, i);
    RootShape(j, s, s', i, v);
    LoopMoveBeside(j, s, s');
    BesideFrames(j, s, s');
    ClaimsAfterMove(j, s, s');
    EnqueuesAfterMove(j, s, s');
    assert v in s.pc && s.left[v] == 0 && s'.left == s.left by { RootCounter(j, s, s', i, v); }
    RootIsFree(j, s, v);
    RootLocal(j, s, s', i, v);
    RootCause(j, s, s', i, v);
    CounterFrame(j, s, s');
    RootClaims(j, s, s', i, v);
    RootScan(j, s, s', i, v);
    RootReady(j, s, s', i, v);
    RootRunning(j, s, s', i, v);
  }

  lemma RootCounter(j: Job, s: State, s': State, i: nat, v: NodeId)
    requires ValidJob(j) && Shape(j, s) && AtRoot(j, s, i, v) && s' == ScanRoot(j, s, i) && CounterInv(j, s)
    ensures v in s.pc && s.left[v] == 0 && s'.left == s.left
  {
    RootIsFree(j, s, v);
    assert s.left[v] == |Remaining(j, s.pc, v)|;
  }

  // ------------------------------------------------------------ enqueueing a root

  ghost predicate AtRootEnqueue(j: Job, s: State, i: nat, v: NodeId)
    requires Shape(j, s)
  {
    && s.main == EnqueueingRoot(i) && j.g.nodes[i] == v && v in s.pc && Root(j, v)
    && s.nodeState[v].Running? && s.pc[v].Absent?
    && (forall k :: 0 <= k < |j.g.nodes| && k != i ==> j.g.nodes[k] != v)
  }

  lemma RootEnqueueShape(j: Job, s: State, s': State, i: nat, v: NodeId)
    requires Shape(j, s) && AtRootEnqueue(j, s, i, v) && s' == EnqueueRoot(j, s, i)
    ensures Shape(j, s') && LoopMove(s, s') && s'.nodeState == s.nodeState && s'.left == s.left
      && s'.main == Scanning(i + 1)
    ensures s'.pc == s.pc[v := Queued] && v in s.pc && s.pc[v].Absent?
  {
  }

  lemma RootEnqueueLocal(j: Job, s: State, s': State, i: nat, v: NodeId)
    requires Shape(j, s) && AtRootEnqueue(j, s, i, v) && s' == EnqueueRoot(j, s, i) && Shape(j, s') && LocalInv(j, s)
    ensures LocalInv(j, s')
  {
    forall x | x in s.pc && x != v ensures LocalOk(j, s', x) {
      assert LocalOk(j, s, x);
    }
  }

  lemma RootEnqueueEnqueue(j: Job, s: State, s': State, i: nat, v: NodeId)
    requires Shape(j, s) && AtRootEnqueue(j, s, i, v) && s' == EnqueueRoot(j, s, i) && Shape(j, s')
    requires EnqueueInv(j, s) && SameEnqueues(j, s, s') && forall w :: !Enqueues(j, s, w, v)
    ensures EnqueueInv(j, s')
  {
    hide Enqueues;
  }

  lemma RootEnqueueScan(j: Job, s: State, s': State, i: nat, v: NodeId)
    requires Shape(j, s) && AtRootEnqueue(j, s, i, v) && s' == EnqueueRoot(j, s, i) && Shape(j, s') && ScanInv(j, s)
    ensures ScanInv(j, s')
  {
  }

  lemma RootEnqueueReady(j: Job, s: State, s': State, i: nat, v: NodeId)
    requires Shape(j, s) && AtRootEnqueue(j, s, i, v) && s' == EnqueueRoot(j, s, i) && Shape(j, s')
    requires ReadyInv(j, s) && SameClaims(j, s, s')
    ensures ReadyInv(j, s')
  {
    hide Claims;
    forall x | x in s.pc && s'.nodeState[x].Pending? && s'.left[x] == 0 ensures Claimable(j, s', x) {
      assert Claimable(j, s, x);
      if w :| Claims(j, s, w, x) {
        assert Claims(j, s', w, x);
      }
    }
  }

  lemma RootEnqueueRunning(j: Job, s: State, s': State, i: nat, v: NodeId)
    requires Shape(j, s) && AtRootEnqueue(j, s, i, v) && s' == EnqueueRoot(j, s, i) && Shape(j, s')
    requires RunningInv(j, s) && SameEnqueues(j, s, s')
    ensures RunningInv(j, s')
  {
    hide Enqueues;
    forall x | x in s.pc && s'.nodeState[x].Running? && s'.pc[x].Absent? ensures BeingEnqueued(j, s', x) {
      assert BeingEnqueued(j, s, x);
      var w :| Enqueues(j, s, w, x);
      assert Enqueues(j, s', w, x);
    }
  }

  lemma RootEnqueueFinds(j: Job, s: State, i: nat)
    requires ValidJob(j) && Shape(j, s) && ScanInv(j, s) && s.main == EnqueueingRoot(i)
    ensures AtRootEnqueue(j, s, i, j.g.nodes[i])
  {
  }

  lemma RootEnqueueStep(j: Job, s: State, i: nat)
    requires Inv(j, s) && s.main == EnqueueingRoot(i) && i < |j.g.nodes|
    ensures Inv(j, EnqueueRoot(j, s, i))
  {
    hide LocalInv, CauseInv, DoomInv, HoldInv, CounterInv, ClaimInv, EnqueueInv, ScanInv, ReadyInv, RunningInv,
      ClosureInv, LatchInv, ValidJob, SameClaims, SameEnqueues, BesideLoop, LoopMove, AtRootEnqueue, EnqueueRoot;
    var s' := EnqueueRoot(j, s, i);
    var v := j.g.nodes[i];
    RootEnqueueFinds(j, s, i);
    RootEnqueueShape(j, s, s', i, v);
    LoopMoveBeside(j, s, s');
    BesideFrames(j, s, s');
    ClaimsAfterMove(j, s, s');
    EnqueuesAfterMove(j, s, s');
    assert Root(j, v) by { RootOfEnqueue(j, s, i, v); }
    RootIsFree(j, s, v);
    RootEnqueueLocal(j, s, s', i, v);
    CauseFrame(j, s, s');
    CounterFrame(j, s, s');
    ClaimFrame(j, s, s');
    RootEnqueueEnqueue(j, s, s', i, v);
    RootEnqueueScan(j, s, s', i, v);
    RootEnqueueReady(j, s, s', i, v);
    RootEnqueueRunning(j, s, s', i, v);
  }

  lemma RootOfEnqueue(j: Job, s: State, i: nat, v: NodeId)
    requires Shape(j, s) && AtRootEnqueue(j, s, i, v)
    ensures Root(j, v)
  {
  }
}
