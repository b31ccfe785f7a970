/** The downstream loop after a success: fetch_sub, the CAS of `scheduleNode`, enqueue. */
module SchedulerSuccessSteps {
  import opened DependencyGraph
  import opened SchedulerModel
  import opened SchedulerInvariant
  import opened SchedulerFrames
  import opened SchedulerOutcomeSteps

  /** When every entry of `v` has been decremented, all its dependencies have succeeded. */
  lemma AllDecremented(j: Job, s: State, v: NodeId)
    requires ValidJob(j) && Shape(j, s) && LocalInv(j, s)
    requires v in s.pc && Remaining(j, s.pc, v) == {}
    ensures DepsSucceeded(j, s, v)
  {
    forall u | u in j.g.deps[v] ensures u in s.nodeState && s.nodeState[u].Success? {
      assert u in j.g.down && v in j.g.down[u];
      var i :| 0 <= i < |j.g.down[u]| && j.g.down[u][i] == v;
      assert (u, i) !in Remaining(j, s.pc, v);
      assert LocalOk(j, s, u);
    }
  }

  lemma ZeroMeansDepsSucceeded(j: Job, s: State, v: NodeId)
    requires ValidJob(j) && Shape(j, s) && LocalInv(j, s) && CounterInv(j, s)
    requires v in s.pc && s.left[v] == 0
    ensures DepsSucceeded(j, s, v)
  {
    assert s.left[v] == |Remaining(j, s.pc, v)|;
    AllDecremented(j, s, v);
  }

  lemma NotBothDoomed(j: Job, s: State, v: NodeId)
    requires Shape(j, s) && v in s.pc && DepsSucceeded(j, s, v)
    ensures !Doomed(j, s, v)
  {
  }

  // ------------------------------------------------------------ fetch_sub

  ghost predicate AtDecrement(j: Job, s: State, n: NodeId, i: nat)
    requires Shape(j, s)
  {
    n in s.pc && s.pc[n] == Decrementing(i) && i < |j.g.down[n]|
  }

  lemma OneMoreDecremented(j: Job, s: State, s': State, n: NodeId, i: nat)
    requires Shape(j, s) && AtDecrement(j, s, n, i) && s' == Decrement(j, s, n, i) && Shape(j, s')
    ensures s.pc.Keys == j.g.down.Keys == s'.pc.Keys && n in j.g.down
    ensures Decremented(j, n, s.pc[n]) == i && Decremented(j, n, s'.pc[n]) == i + 1
    ensures forall u :: u in j.g.down && u != n ==> Decremented(j, u, s'.pc[u]) == Decremented(j, u, s.pc[u])
  {
    hide PcInRange;
  }

  lemma RemainingAfter(j: Job, s: State, s': State, n: NodeId, i: nat, x: NodeId)
    requires Shape(j, s) && AtDecrement(j, s, n, i) && s' == Decrement(j, s, n, i) && Shape(j, s')
    ensures Remaining(j, s'.pc, x) ==
      if x == j.g.down[n][i] then Remaining(j, s.pc, x) - {(n, i)} else Remaining(j, s.pc, x)
    ensures x == j.g.down[n][i] ==> (n, i) in Remaining(j, s.pc, x)
  {
    hide Shape, Decremented;
    OneMoreDecremented(j, s, s', n, i);
  }

  lemma DecrementCounter(j: Job, s: State, n: NodeId, i: nat)
    requires Shape(j, s) && CounterInv(j, s) && AtDecrement(j, s, n, i)
    requires Shape(j, Decrement(j, s, n, i))
    ensures CounterInv(j, Decrement(j, s, n, i))
    ensures s.left[j.g.down[n][i]] >= 1
  {
    var s' := Decrement(j, s, n, i);
    forall x | x in s.pc ensures s'.left[x] == |Remaining(j, s'.pc, x)| {
      assert s.left[x] == |Remaining(j, s.pc, x)|;
      RemainingAfter(j, s, s', n, i, x);
    }
    RemainingAfter(j, s, s', n, i, j.g.down[n][i]);
    hide Remaining;
    assert s.left[j.g.down[n][i]] == |Remaining(j, s.pc, j.g.down[n][i])|;
  }

  lemma DecrementShape(j: Job, s: State, n: NodeId, i: nat)
    requires Shape(j, s) && AtDecrement(j, s, n, i)
    ensures Shape(j, Decrement(j, s, n, i))
  {
  }

  /** The worker that takes a counter to 0 may claim the node: it is still Pending. */
  lemma ReadyIsPending(j: Job, s: State, v: NodeId)
    requires ValidJob(j) && Shape(j, s) && LocalInv(j, s) && CounterInv(j, s) && DoomInv(j, s)
    requires v in s.pc && s.left[v] == 0 && !Claimed(s.nodeState[v])
    ensures s.nodeState[v].Pending?
  {
    ZeroMeansDepsSucceeded(j, s, v);
    NotBothDoomed(j, s, v);
  }

  lemma DecrementClaim(j: Job, s: State, s': State, n: NodeId, i: nat)
    requires Shape(j, s) && AtDecrement(j, s, n, i) && s' == Decrement(j, s, n, i) && Shape(j, s')
    requires ClaimInv(j, s) && s.left[j.g.down[n][i]] >= 1
    requires s'.left[j.g.down[n][i]] == 0 ==> s'.nodeState[j.g.down[n][i]].Pending?
    ensures ClaimInv(j, s')
  {
    hide PcInRange, MainInRange, JobTables;
    var v := j.g.down[n][i];
    forall w, x | Claims(j, s', w, x)
      ensures if w == n then x == v && s'.left[v] == 0 else Claims(j, s, w, x) && x != v
    {
    }
    hide Decrement, Claims;
    assert !Claimed(s.nodeState[v]);
  }

  lemma DecrementReady(j: Job, s: State, s': State, n: NodeId, i: nat)
    requires Shape(j, s) && AtDecrement(j, s, n, i) && s' == Decrement(j, s, n, i) && Shape(j, s')
    requires ReadyInv(j, s)
    ensures ReadyInv(j, s')
  {
    var v := j.g.down[n][i];
    forall x | x in s'.pc && s'.nodeState[x].Pending? && s'.left[x] == 0 ensures Claimable(j, s', x) {
      if x == v {
        assert Claims(j, s', n, v);
      } else {
        assert Claimable(j, s, x);
        if w :| Claims(j, s, w, x) {
          assert Claims(j, s', w, x);
        } else {
          var k :| 0 <= k < |j.g.nodes| && j.g.nodes[k] == x && AheadOfScan(s, k);
          assert AheadOfScan(s', k);
        }
      }
    }
  }

  /** What a step of the success loop leaves alone beside counters and claims. */
  ghost predicate BesideLoop(j: Job, s: State, s': State)
    requires Shape(j, s)
  {
    && Shape(j, s') && SameCancels(s, s') && SameHeld(s, s') && Forward(s, s')
    && SameStages(s, s') && SameOwnLoops(j, s, s')
    && s'.latch == s.latch && s'.metrics == s.metrics
    && (forall v :: v in s.pc && !Unrecorded(s, v) ==> s'.nodeState[v] == s.nodeState[v])
    && (forall v :: v in s.pc && Broken(s'.nodeState[v]) ==> Broken(s.nodeState[v]))
  }

  ghost predicate SameStages(s: State, s': State) {
    forall v {:trigger Uncounted(s', v)} {:trigger Unrecorded(s', v)} :: v in s.pc ==>
      (Uncounted(s', v) <==> Uncounted(s, v)) && (Unrecorded(s', v) <==> Unrecorded(s, v))
  }

  ghost predicate SameOwnLoops(j: Job, s: State, s': State)
    requires Shape(j, s) && Shape(j, s')
  {
    forall u, v {:trigger InOwnLoop(j, s', u, v)} :: u in s.pc && v in j.g.down[u] ==>
      (InOwnLoop(j, s, u, v) ==> InOwnLoop(j, s', u, v))
  }

  lemma BesideFrames(j: Job, s: State, s': State)
    requires Shape(j, s) && BesideLoop(j, s, s')
    requires DoomInv(j, s) && HoldInv(s) && ClosureInv(j, s) && LatchInv(j, s)
    ensures DoomInv(j, s') && HoldInv(s') && ClosureInv(j, s') && LatchInv(j, s')
  {
    hide DoomInv, HoldInv, ClosureInv, LatchInv, InOwnLoop, SameHeld, Uncounted, Unrecorded;
    DoomFrame(j, s, s');
    HoldFrame(s, s');
    ClosureFrame(j, s, s');
    LatchFrame(j, s, s');
  }

  /** Positions in the success loop. */
  ghost predicate InLoop(pc: Pc) {
    pc.Decrementing? || pc.Claiming? || pc.Enqueueing?
  }

  /** Worker `n` moves inside the success loop; a node may be claimed, or enter the pool. */
  ghost predicate LoopMove(s: State, s': State) {
    && s'.pc.Keys == s.pc.Keys && s'.nodeState.Keys == s.nodeState.Keys && s.nodeState.Keys == s.pc.Keys
    && (forall w :: w in s.pc ==>
          || s'.pc[w] == s.pc[w]
          || (InLoop(s.pc[w]) && InLoop(s'.pc[w]))
          || (s.pc[w].Absent? && s'.pc[w].Queued?))
    && (forall v :: v in s.pc ==>
          || s'.nodeState[v] == s.nodeState[v]
          || (s.nodeState[v].Pending? && s'.nodeState[v].Running?))
    && s'.latch == s.latch && s'.metrics == s.metrics
  }

  lemma LoopMoveStages(s: State, s': State)
    requires LoopMove(s, s')
    ensures SameStages(s, s')
    ensures forall v :: v in s.pc && !Unrecorded(s, v) ==> s'.nodeState[v] == s.nodeState[v]
  {
    LoopMoveApart(s, s');
    HeldAfterMove(s, s');
    hide SameHeld, Uncounted, Unrecorded, InLoop;
    forall v | v in s.pc
      ensures (Uncounted(s', v) <==> Uncounted(s, v)) && (Unrecorded(s', v) <==> Unrecorded(s, v))
      ensures !Unrecorded(s, v) ==> s'.nodeState[v] == s.nodeState[v]
    {
      LoopMoveStageAt(s, s', v);
    }
  }

  lemma LoopMoveStageAt(s: State, s': State, v: NodeId)
    requires LoopMove(s, s') && SameHeld(s, s') && v in s.pc
    ensures (Uncounted(s', v) <==> Uncounted(s, v)) && (Unrecorded(s', v) <==> Unrecorded(s, v))
    ensures !Unrecorded(s, v) ==> s'.nodeState[v] == s.nodeState[v]
  {
    SameStageAt(s, s', v);
    hide SameHeld, Held, HeldUnrecorded;
  }

  lemma LoopMoveOwn(j: Job, s: State, s': State)
    requires Shape(j, s) && Shape(j, s') && LoopMove(s, s')
    ensures SameOwnLoops(j, s, s')
  {
    forall u, v | u in s.pc && v in j.g.down[u] && InOwnLoop(j, s, u, v) ensures InOwnLoop(j, s', u, v) {
      LoopMoveOwnAt(j, s, s', u, v);
    }
  }

  lemma LoopMoveOwnAt(j: Job, s: State, s': State, u: NodeId, v: NodeId)
    requires Shape(j, s) && Shape(j, s') && LoopMove(s, s') && u in s.pc && InOwnLoop(j, s, u, v)
    ensures InOwnLoop(j, s', u, v)
  {
    hide Shape, Ahead;
    assert s'.pc[u] == s.pc[u];
  }

  lemma LoopMoveApart(s: State, s': State)
    requires LoopMove(s, s')
    ensures CancelsApart(s, s')
  {
  }

  lemma LoopMoveForward(s: State, s': State)
    requires LoopMove(s, s')
    ensures s.nodeState.Keys == s'.nodeState.Keys && Forward(s, s')
    ensures forall v :: v in s.pc && Broken(s'.nodeState[v]) ==> Broken(s.nodeState[v])
    ensures s'.latch == s.latch && s'.metrics == s.metrics
  {
  }

  lemma LoopMoveBeside(j: Job, s: State, s': State)
    requires Shape(j, s) && Shape(j, s') && LoopMove(s, s')
    ensures BesideLoop(j, s, s')
  {
    hide LoopMove, CancelsApart, SameCancels, SameHeld, Uncounted, Unrecorded, SameOwnLoops, SameStages, Shape, Forward;
    LoopMoveApart(s, s');
    LoopMoveForward(s, s');
    CancelsAfterMove(s, s');
    HeldAfterMove(s, s');
    LoopMoveStages(s, s');
    LoopMoveOwn(j, s, s');
  }

  lemma DecrementAt(j: Job, s: State, n: NodeId, i: nat)
    requires Shape(j, s) && AtDecrement(j, s, n, i)
    ensures n in s.pc
  {
  }

  lemma DecrementIsLoopMove(j: Job, s: State, n: NodeId, i: nat)
    requires Shape(j, s) && AtDecrement(j, s, n, i)
    ensures LoopMove(s, Decrement(j, s, n, i))
  {
  }

  lemma DecrementLocal(j: Job, s: State, n: NodeId, i: nat)
    requires Shape(j, s) && AtDecrement(j, s, n, i) && LocalOk(j, s, n)
    requires Shape(j, Decrement(j, s, n, i))
    ensures LocalOk(j, Decrement(j, s, n, i), n)
  {
    hide OwnSuccess;
  }

  lemma DecrementKeepsEnqueues(j: Job, s: State, n: NodeId, i: nat)
    requires Shape(j, s) && AtDecrement(j, s, n, i)
    requires Shape(j, Decrement(j, s, n, i))
    ensures SameEnqueues(j, s, Decrement(j, s, n, i))
  {
    hide SameEnqueues, PcInRange, Enqueues;
    EnqueuesAfterMove(j, s, Decrement(j, s, n, i));
  }

  lemma DecrementRestHolds(j: Job, s: State, n: NodeId, i: nat)
    requires Shape(j, s) && AtDecrement(j, s, n, i) && LocalOk(j, s, n)
    requires Shape(j, Decrement(j, s, n, i))
    ensures LoopMove(s, Decrement(j, s, n, i))
    ensures n in s.pc && !Decrement(j, s, n, i).pc[n].Absent?
    ensures SameEnqueues(j, s, Decrement(j, s, n, i)) && SameOutside(j, s, Decrement(j, s, n, i))
    ensures LocalOk(j, Decrement(j, s, n, i), n)
    ensures Decrement(j, s, n, i).nodeState == s.nodeState && Decrement(j, s, n, i).main == s.main
    ensures forall x :: x in s.pc && x != n ==> Decrement(j, s, n, i).pc[x] == s.pc[x]
  {
    hide SameEnqueues, OwnSuccess, LoopMove, LocalOk;
    DecrementIsLoopMove(j, s, n, i);
    DecrementLocal(j, s, n, i);
    DecrementKeepsEnqueues(j, s, n, i);
  }

  /** Counters and claims aside, the fetch_sub keeps everything. */
  lemma DecrementFrames(j: Job, s: State, s': State, n: NodeId, i: nat)
    requires Shape(j, s) && LocalInv(j, s) && CauseInv(j, s) && EnqueueInv(j, s) && ScanInv(j, s) && RunningInv(j, s)
    requires AtDecrement(j, s, n, i) && s' == Decrement(j, s, n, i) && Shape(j, s')
    ensures LocalInv(j, s') && CauseInv(j, s') && EnqueueInv(j, s') && ScanInv(j, s') && RunningInv(j, s')
  {
    hide LocalInv, CauseInv, DoomInv, HoldInv, CounterInv, ClaimInv, EnqueueInv, ScanInv, ReadyInv, RunningInv,
      ClosureInv, LatchInv, LocalOk, ValidJob, PcInRange, SameEnqueues, SameOutside, LoopMove, Decrement, AtDecrement;
    assert n in s.pc by { DecrementAt(j, s, n, i); }
    LocalAt(j, s, n);
    DecrementRestHolds(j, s, n, i);
    LocalAfterMove(j, s, s', n);
    CauseFrame(j, s, s');
    EnqueueFrame(j, s, s');
    ScanFrame(j, s, s');
    RunningFrame(j, s, s');
  }

  lemma DecrementPending(j: Job, s: State, s': State, n: NodeId, i: nat)
    requires ValidJob(j) && Shape(j, s) && AtDecrement(j, s, n, i) && s' == Decrement(j, s, n, i) && Shape(j, s')
    requires ClaimInv(j, s) && s.left[j.g.down[n][i]] >= 1
    requires LocalInv(j, s') && CounterInv(j, s') && DoomInv(j, s')
    ensures s'.left[j.g.down[n][i]] == 0 ==> s'.nodeState[j.g.down[n][i]].Pending?
  {
    hide LocalInv, CounterInv, DoomInv;
    if s'.left[j.g.down[n][i]] == 0 {
      ReadyIsPending(j, s', j.g.down[n][i]);
    }
  }

  lemma DecrementStep(j: Job, s: State, n: NodeId, i: nat)
    requires Inv(j, s) && AtDecrement(j, s, n, i)
    ensures Inv(j, Decrement(j, s, n, i))
  {
    var s' := Decrement(j, s, n, i);
    LocalAt(j, s, n);
    DecrementShape(j, s, n, i);
    DecrementCounter(j, s, n, i);
    DecrementRestHolds(j, s, n, i);
    hide LocalInv, CauseInv, DoomInv, HoldInv, CounterInv, ClaimInv, EnqueueInv, ScanInv, ReadyInv, RunningInv,
      ClosureInv, LatchInv, LocalOk, ValidJob, PcInRange, SameEnqueues, SameOutside, LoopMove, BesideLoop;
    LoopMoveBeside(j, s, s');
    BesideFrames(j, s, s');
    DecrementFrames(j, s, s', n, i);
    DecrementPending(j, s, s', n, i);
    DecrementClaim(j, s, s', n, i);
    DecrementReady(j, s, s', n, i);
  }

  // ------------------------------------------------------------ the CAS of scheduleNode

  ghost predicate AtClaim(j: Job, s: State, n: NodeId, i: nat, v: NodeId)
    requires Shape(j, s)
  {
    n in s.pc && s.pc[n] == Claiming(i) && j.g.down[n][i] == v && v in s.pc && v != n
    && s.nodeState[v].Pending? && s.pc[v].Absent? && j.g.deps[v] != [] && s.left[v] == 0
  }

  /** The CAS of `scheduleNode` never fails within a run. */
  lemma ClaimSucceeds(j: Job, s: State, n: NodeId, i: nat)
    requires ValidJob(j) && Shape(j, s) && LocalInv(j, s) && ClaimInv(j, s)
    requires n in s.pc && s.pc[n] == Claiming(i)
    ensures AtClaim(j, s, n, i, j.g.down[n][i])
  {
    var v := j.g.down[n][i];
    assert Claims(j, s, n, v);
    LocalAt(j, s, n);
    LocalAt(j, s, v);
    assert v in j.g.down[n];
    assert n in j.g.deps[v];
  }

  lemma ClaimShape(j: Job, s: State, n: NodeId, i: nat, v: NodeId)
    requires Shape(j, s) && AtClaim(j, s, n, i, v)
    ensures Shape(j, Claim(j, s, n, i))
  {
  }

  lemma ClaimMove(j: Job, s: State, n: NodeId, i: nat, v: NodeId)
    requires Shape(j, s) && AtClaim(j, s, n, i, v) && Shape(j, Claim(j, s, n, i))
    ensures LoopMove(s, Claim(j, s, n, i)) && SameDecrements(j, s, Claim(j, s, n, i))
  {
  }

  lemma ClaimLocal(j: Job, s: State, s': State, n: NodeId, i: nat, v: NodeId)
    requires Shape(j, s) && LocalInv(j, s) && AtClaim(j, s, n, i, v) && s' == Claim(j, s, n, i) && Shape(j, s')
    ensures LocalInv(j, s')
  {
    LocalAt(j, s, n);
    forall x | x in s'.pc && x != n && x != v ensures LocalOk(j, s', x) {
      LocalAt(j, s, x);
    }
  }

  lemma ClaimClaim(j: Job, s: State, s': State, n: NodeId, i: nat, v: NodeId)
    requires Shape(j, s) && AtClaim(j, s, n, i, v) && s' == Claim(j, s, n, i) && Shape(j, s') && ClaimInv(j, s)
    ensures ClaimInv(j, s')
  {
    assert Claims(j, s, n, v);
    forall w, x | Claims(j, s', w, x) ensures Claims(j, s, w, x) && w != n && x != v {
      assert Claims(j, s, w, x);
    }
    hide Claims;
  }

  lemma ClaimEnqueue(j: Job, s: State, s': State, n: NodeId, i: nat, v: NodeId)
    requires Shape(j, s) && AtClaim(j, s, n, i, v) && s' == Claim(j, s, n, i) && Shape(j, s') && EnqueueInv(j, s)
    ensures EnqueueInv(j, s')
  {
    forall w, x | Enqueues(j, s', w, x)
      ensures if w == n then x == v else Enqueues(j, s, w, x) && x != v
    {
    }
    hide Enqueues;
  }

  lemma ClaimScan(j: Job, s: State, s': State, n: NodeId, i: nat, v: NodeId)
    requires Shape(j, s) && AtClaim(j, s, n, i, v) && s' == Claim(j, s, n, i) && Shape(j, s') && ScanInv(j, s)
    ensures ScanInv(j, s')
  {
  }

  lemma ClaimReady(j: Job, s: State, s': State, n: NodeId, i: nat, v: NodeId)
    requires Shape(j, s) && AtClaim(j, s, n, i, v) && s' == Claim(j, s, n, i) && Shape(j, s') && ReadyInv(j, s)
    ensures ReadyInv(j, s')
  {
    forall x | x in s'.pc && s'.nodeState[x].Pending? && s'.left[x] == 0 ensures Claimable(j, s', x) {
      assert Claimable(j, s, x);
      if w :| Claims(j, s, w, x) {
        assert Claims(j, s', w, x);
      } else {
        var k :| 0 <= k < |j.g.nodes| && j.g.nodes[k] == x && AheadOfScan(s, k);
        assert AheadOfScan(s', k);
      }
    }
  }

  lemma ClaimRunning(j: Job, s: State, s': State, n: NodeId, i: nat, v: NodeId)
    requires Shape(j, s) && AtClaim(j, s, n, i, v) && s' == Claim(j, s, n, i) && Shape(j, s') && RunningInv(j, s)
    ensures RunningInv(j, s')
  {
    forall x | x in s'.pc && s'.nodeState[x].Running? && s'.pc[x].Absent? ensures BeingEnqueued(j, s', x) {
      if x == v {
        assert Enqueues(j, s', n, v);
      } else {
        assert BeingEnqueued(j, s, x);
        if !MainEnqueues(j, s, x) {
          var w :| Enqueues(j, s, w, x);
          assert Enqueues(j, s', w, x);
        }
      }
    }
  }

  lemma ClaimCause(j: Job, s: State, s': State, n: NodeId, i: nat, v: NodeId)
    requires Shape(j, s) && AtClaim(j, s, n, i, v) && s' == Claim(j, s, n, i) && Shape(j, s')
    requires CauseInv(j, s) && DepsSucceeded(j, s, v)
    ensures CauseInv(j, s')
  {
    hide CauseInv, DepsSucceeded;
    CauseFrame(j, s, s');
  }

  lemma ClaimStep(j: Job, s: State, n: NodeId, i: nat)
    requires Inv(j, s) && n in s.pc && s.pc[n] == Claiming(i)
    requires n in j.g.down && i < |j.g.down[n]| && j.g.down[n][i] in s.nodeState
    ensures Inv(j, Claim(j, s, n, i))
  {
    var s' := Claim(j, s, n, i);
    var v := j.g.down[n][i];
    hide LocalInv, CauseInv, DoomInv, HoldInv, CounterInv, ClaimInv, EnqueueInv, ScanInv, ReadyInv, RunningInv,
      ClosureInv, LatchInv, ValidJob, PcInRange, SameDecrements, LoopMove, BesideLoop, DepsSucceeded;
    ClaimSucceeds(j, s, n, i);
    ClaimShape(j, s, n, i, v);
    ClaimMove(j, s, n, i, v);
    ClaimLocal(j, s, s', n, i, v);
    LoopMoveBeside(j, s, s');
    BesideFrames(j, s, s');
    CounterFrame(j, s, s');
    ZeroMeansDepsSucceeded(j, s, v);
    ClaimCause(j, s, s', n, i, v);
    ClaimClaim(j, s, s', n, i, v);
    ClaimEnqueue(j, s, s', n, i, v);
    ClaimScan(j, s, s', n, i, v);
    ClaimReady(j, s, s', n, i, v);
    ClaimRunning(j, s, s', n, i, v);
  }

  // ------------------------------------------------------------ enqueue

  ghost predicate AtEnqueue(j: Job, s: State, n: NodeId, i: nat, v: NodeId)
    requires Shape(j, s)
  {
    n in s.pc && s.pc[n] == Enqueueing(i) && j.g.down[n][i] == v && v in s.pc && v != n
    && s.nodeState[v].Running? && s.pc[v].Absent? && j.g.deps[v] != []
  }

  lemma EnqueueFinds(j: Job, s: State, n: NodeId, i: nat)
    requires ValidJob(j) && Shape(j, s) && EnqueueInv(j, s)
    requires n in s.pc && s.pc[n] == Enqueueing(i)
    ensures AtEnqueue(j, s, n, i, j.g.down[n][i])
  {
    var v := j.g.down[n][i];
    assert Enqueues(j, s, n, v);
    assert v in j.g.down[n];
    assert n in j.g.deps[v];
  }

  lemma EnqueueShape(j: Job, s: State, n: NodeId, i: nat, v: NodeId)
    requires Shape(j, s) && AtEnqueue(j, s, n, i, v)
    ensures Shape(j, Enqueue(j, s, n, i))
  {
  }

  lemma EnqueueMove(j: Job, s: State, n: NodeId, i: nat, v: NodeId)
    requires Shape(j, s) && AtEnqueue(j, s, n, i, v) && Shape(j, Enqueue(j, s, n, i))
    ensures LoopMove(s, Enqueue(j, s, n, i))
  {
    var s' := Enqueue(j, s, n, i);
    assert s'.pc.Keys == s.pc.Keys && s'.nodeState.Keys == s.nodeState.Keys && s.nodeState.Keys == s.pc.Keys;
    hide Shape;
  }

  lemma EnqueueDecrements(j: Job, s: State, n: NodeId, i: nat, v: NodeId)
    requires Shape(j, s) && AtEnqueue(j, s, n, i, v) && Shape(j, Enqueue(j, s, n, i))
    ensures SameDecrements(j, s, Enqueue(j, s, n, i))
  {
  }

  lemma EnqueueLocal(j: Job, s: State, s': State, n: NodeId, i: nat, v: NodeId)
    requires Shape(j, s) && LocalInv(j, s) && AtEnqueue(j, s, n, i, v) && s' == Enqueue(j, s, n, i) && Shape(j, s')
    ensures LocalInv(j, s')
  {
    LocalAt(j, s, n);
    forall x | x in s'.pc && x != n && x != v ensures LocalOk(j, s', x) {
      LocalAt(j, s, x);
    }
  }

  lemma EnqueueClaims(j: Job, s: State, s': State, n: NodeId, i: nat, v: NodeId)
    requires Shape(j, s) && AtEnqueue(j, s, n, i, v) && s' == Enqueue(j, s, n, i) && Shape(j, s')
    ensures SameClaims(j, s, s')
  {
    hide SameClaims, Shape;
    ClaimsAfterMove(j, s, s');
  }

  lemma EnqueueEnqueue(j: Job, s: State, s': State, n: NodeId, i: nat, v: NodeId)
    requires Shape(j, s) && AtEnqueue(j, s, n, i, v) && s' == Enqueue(j, s, n, i) && Shape(j, s') && EnqueueInv(j, s)
    ensures EnqueueInv(j, s')
  {
    assert Enqueues(j, s, n, v);
    forall w, x | Enqueues(j, s', w, x) ensures Enqueues(j, s, w, x) && w != n && x != v {
      assert Enqueues(j, s, w, x);
    }
    hide Enqueues;
  }

  lemma EnqueueScan(j: Job, s: State, s': State, n: NodeId, i: nat, v: NodeId)
    requires Shape(j, s) && AtEnqueue(j, s, n, i, v) && s' == Enqueue(j, s, n, i) && Shape(j, s') && ScanInv(j, s)
    ensures ScanInv(j, s')
  {
  }

  lemma EnqueueRunning(j: Job, s: State, s': State, n: NodeId, i: nat, v: NodeId)
    requires Shape(j, s) && AtEnqueue(j, s, n, i, v) && s' == Enqueue(j, s, n, i) && Shape(j, s') && RunningInv(j, s)
    ensures RunningInv(j, s')
  {
    forall x | x in s'.pc && s'.nodeState[x].Running? && s'.pc[x].Absent? ensures BeingEnqueued(j, s', x) {
      assert BeingEnqueued(j, s, x);
      if !MainEnqueues(j, s, x) {
        var w :| Enqueues(j, s, w, x);
        assert Enqueues(j, s', w, x);
      }
    }
  }

  lemma EnqueueStep(j: Job, s: State, n: NodeId, i: nat)
    requires Inv(j, s) && n in s.pc && s.pc[n] == Enqueueing(i)
    requires n in j.g.down && i < |j.g.down[n]| && j.g.down[n][i] in s.nodeState
    ensures Inv(j, Enqueue(j, s, n, i))
  {
    var s' := Enqueue(j, s, n, i);
    var v := j.g.down[n][i];
    hide LocalInv, CauseInv, DoomInv, HoldInv, CounterInv, ClaimInv, EnqueueInv, ScanInv, ReadyInv, RunningInv,
      ClosureInv, LatchInv, ValidJob, PcInRange, SameDecrements, SameClaims, LoopMove, BesideLoop;
    EnqueueFinds(j, s, n, i);
    EnqueueShape(j, s, n, i, v);
    EnqueueMove(j, s, n, i, v);
    EnqueueDecrements(j, s, n, i, v);
    EnqueueLocal(j, s, s', n, i, v);
    EnqueueClaims(j, s, s', n, i, v);
    LoopMoveBeside(j, s, s');
    BesideFrames(j, s, s');
    CounterFrame(j, s, s');
    CauseFrame(j, s, s');
    ClaimFrame(j, s, s');
    EnqueueEnqueue(j, s, s', n, i, v);
    EnqueueScan(j, s, s', n, i, v);
    ReadyFrame(j, s, s');
    EnqueueRunning(j, s, s', n, i, v);
  }
}
