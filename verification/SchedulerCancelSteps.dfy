/** The downstream loop after a failure: the iterative cascade of
    `cancelNodeAndDownstream`, run by any number of workers at once. */
module SchedulerCancelSteps {
  import opened DependencyGraph
  import opened SchedulerModel
  import opened SchedulerInvariant
  import opened SchedulerFrames
  import opened SchedulerOutcomeSteps
  import opened SchedulerSuccessSteps

  /** Worker `n` moves inside the cascade. */
  ghost predicate CancelMove(j: Job, s: State, s': State, n: NodeId)
    requires Shape(j, s)
  {
    && Shape(j, s') && n in s.pc && InCancel(s.pc[n]) && InCancel(s'.pc[n])
    && s'.pc == s.pc[n := s'.pc[n]] && s'.left == s.left && s'.main == s.main
  }

  /** What every step of the cascade keeps, whatever it does to the node states. */
  lemma CancelMoveSame(j: Job, s: State, s': State, n: NodeId)
    requires Shape(j, s) && CancelMove(j, s, s', n)
    ensures SameClaims(j, s, s') && SameEnqueues(j, s, s') && SameDecrements(j, s, s')
    ensures forall x :: x in s.pc ==> (s.pc[x].Absent? <==> s'.pc[x].Absent?)
  {
    ClaimsAfterMove(j, s, s');
    EnqueuesAfterMove(j, s, s');
  }

  lemma CancelMoveLocal(j: Job, s: State, s': State, n: NodeId)
    requires Shape(j, s) && LocalInv(j, s) && CancelMove(j, s, s', n) && s'.nodeState == s.nodeState
    ensures LocalInv(j, s')
  {
    LocalAt(j, s, n);
    LocalAfterMove(j, s, s', n);
  }

  /** A step of the cascade that changes no node state keeps all but the groups about
      stacks and about latch and metrics. */
  lemma CancelMoveFrames(j: Job, s: State, s': State, n: NodeId)
    requires Inv(j, s) && CancelMove(j, s, s', n) && s'.nodeState == s.nodeState
    ensures LocalInv(j, s') && CauseInv(j, s') && CounterInv(j, s') && ClaimInv(j, s')
    ensures EnqueueInv(j, s') && ScanInv(j, s') && ReadyInv(j, s') && RunningInv(j, s')
  {
    hide LocalInv, CauseInv, DoomInv, HoldInv, CounterInv, ClaimInv, EnqueueInv, ScanInv, ReadyInv, RunningInv,
      ClosureInv, LatchInv, ValidJob, SameClaims, SameEnqueues, SameDecrements, InCancel;
    CancelMoveSame(j, s, s', n);
    CancelMoveLocal(j, s, s', n);
    CauseFrame(j, s, s');
    CounterFrame(j, s, s');
    ClaimFrame(j, s, s');
    EnqueueFrame(j, s, s');
    ScanFrame(j, s, s');
    ReadyFrame(j, s, s');
    RunningFrame(j, s, s');
  }

  /** The dependants of a broken node are doomed. */
  lemma BrokenDooms(j: Job, s: State, u: NodeId, v: NodeId)
    requires ValidJob(j) && Shape(j, s) && u in s.pc && v in j.g.down[u] && Broken(s.nodeState[u])
    ensures v in s.pc && Doomed(j, s, v)
  {
    assert u in j.g.deps[v];
  }

  lemma DoomAfterMove(j: Job, s: State, s': State, n: NodeId)
    requires Shape(j, s) && CancelMove(j, s, s', n) && DoomInv(j, s)
    requires forall x :: x in s.nodeState && Broken(s.nodeState[x]) ==> Broken(s'.nodeState[x])
    requires forall x :: x in s.nodeState && s'.nodeState[x].Cancelled? ==> Doomed(j, s, x)
    requires forall x :: x in s'.pc[n].stack ==> x in s.pc && Doomed(j, s, x)
    ensures DoomInv(j, s')
  {
    hide Doomed;
    forall v | v in s.pc && s'.nodeState[v].Cancelled? ensures Doomed(j, s', v) {
      DoomedKept(j, s, s', v);
    }
    forall w, v | OnStack(s', w, v) ensures v in s.pc && Doomed(j, s', v) {
      StackDoomed(j, s, s', n, w, v);
      DoomedKept(j, s, s', v);
    }
  }

  lemma StackDoomed(j: Job, s: State, s': State, n: NodeId, w: NodeId, v: NodeId)
    requires Shape(j, s) && CancelMove(j, s, s', n) && DoomInv(j, s)
    requires forall x :: x in s'.pc[n].stack ==> x in s.pc && Doomed(j, s, x)
    requires OnStack(s', w, v)
    ensures v in s.pc && Doomed(j, s, v)
  {
    hide Doomed;
    if w != n {
      assert OnStack(s, w, v);
    }
  }

  // ------------------------------------------------------------ next entry, pop and skip

  ghost predicate AtCancel(j: Job, s: State, n: NodeId, i: nat, stack: seq<NodeId>)
    requires Shape(j, s)
  {
    && n in s.pc && s.pc[n] == Cancelling(i, stack) && i <= |j.g.down[n]|
    && (forall x :: x in stack ==> x in s.pc)
  }

  /** The step pops nothing Pending: it takes up the next entry, or skips a handled node. */
  ghost predicate SkipStep(j: Job, s: State, s': State, n: NodeId, i: nat, stack: seq<NodeId>)
    requires Shape(j, s) && AtCancel(j, s, n, i, stack)
  {
    && n in s'.pc && s' == SetPc(s, n, s'.pc[n])
    && if stack == []
       then i < |j.g.down[n]| && s'.pc[n] == Cancelling(i + 1, [j.g.down[n][i]])
       else s'.pc[n] == Cancelling(i, stack[..|stack| - 1]) && !s.nodeState[stack[|stack| - 1]].Pending?
  }

  lemma SkipMove(j: Job, s: State, s': State, n: NodeId, i: nat, stack: seq<NodeId>)
    requires Shape(j, s) && AtCancel(j, s, n, i, stack) && SkipStep(j, s, s', n, i, stack)
    ensures CancelMove(j, s, s', n)
  {
  }

  lemma SkipHolds(j: Job, s: State, s': State, n: NodeId, i: nat, stack: seq<NodeId>)
    requires Shape(j, s) && AtCancel(j, s, n, i, stack) && SkipStep(j, s, s', n, i, stack)
    requires HoldInv(s)
    ensures HoldInv(s')
  {
    forall w, v | Holds(s', w, v) ensures Holds(s, w, v) {
    }
  }

  lemma SkipDoom(j: Job, s: State, s': State, n: NodeId, i: nat, stack: seq<NodeId>)
    requires ValidJob(j) && Shape(j, s) && AtCancel(j, s, n, i, stack) && SkipStep(j, s, s', n, i, stack)
    requires DoomInv(j, s) && CancelMove(j, s, s', n) && s.nodeState[n].Failed?
    ensures DoomInv(j, s')
  {
    forall x | x in s'.pc[n].stack ensures x in s.pc && Doomed(j, s, x) {
      if stack == [] {
        assert x == j.g.down[n][i];
        BrokenDooms(j, s, n, x);
      } else {
        assert OnStack(s, n, x);
      }
    }
    forall x | x in s.nodeState && s'.nodeState[x].Cancelled? ensures Doomed(j, s, x) {
    }
    DoomAfterMove(j, s, s', n);
  }

  /** An entry not yet taken up is ahead of the loop, or is the one just taken up. */
  lemma SkipOwnLoop(j: Job, s: State, s': State, n: NodeId, i: nat, stack: seq<NodeId>, v: NodeId)
    requires Shape(j, s) && AtCancel(j, s, n, i, stack) && SkipStep(j, s, s', n, i, stack) && Shape(j, s')
    requires InOwnLoop(j, s, n, v)
    ensures InOwnLoop(j, s', n, v) || OnStack(s', n, v)
  {
    var k :| 0 <= i <= k < |j.g.down[n]| && j.g.down[n][k] == v;
    if stack == [] && k > i {
      assert Ahead(j.g.down[n], i + 1, v);
    }
  }

  lemma SkipOnStack(j: Job, s: State, s': State, n: NodeId, i: nat, stack: seq<NodeId>, w: NodeId, v: NodeId)
    requires Shape(j, s) && AtCancel(j, s, n, i, stack) && SkipStep(j, s, s', n, i, stack)
    requires OnStack(s, w, v) && v in s.pc
    ensures OnStack(s', w, v) || !s'.nodeState[v].Pending?
  {
    if w == n && v !in s'.pc[n].stack {
      assert v == stack[|stack| - 1];
    }
  }

  lemma SkipCovered(j: Job, s: State, s': State, n: NodeId, i: nat, stack: seq<NodeId>, u: NodeId, v: NodeId)
    requires Shape(j, s) && AtCancel(j, s, n, i, stack) && SkipStep(j, s, s', n, i, stack) && Shape(j, s')
    requires u in s.pc && v in s.pc && SameHeld(s, s') && Covered(j, s, u, v)
    ensures Covered(j, s', u, v)
  {
    hide Held, HeldUnrecorded, UntraversedAt, OnStack;
    if w :| OnStack(s, w, v) {
      SkipOnStack(j, s, s', n, i, stack, w, v);
    } else if u == n && InOwnLoop(j, s, u, v) {
      SkipOwnLoop(j, s, s', n, i, stack, v);
    }
  }

  lemma SkipClosure(j: Job, s: State, s': State, n: NodeId, i: nat, stack: seq<NodeId>)
    requires Shape(j, s) && AtCancel(j, s, n, i, stack) && SkipStep(j, s, s', n, i, stack) && Shape(j, s')
    requires ClosureInv(j, s)
    ensures ClosureInv(j, s')
  {
    SkipHeld(j, s, s', n, i, stack);
    hide Covered, SameHeld;
    forall u, v | u in s.pc && v in s.pc && v in j.g.down[u] && Broken(s'.nodeState[u]) ensures Covered(j, s', u, v) {
      assert Covered(j, s, u, v);
      SkipCovered(j, s, s', n, i, stack, u, v);
    }
  }

  lemma SkipHeld(j: Job, s: State, s': State, n: NodeId, i: nat, stack: seq<NodeId>)
    requires Shape(j, s) && AtCancel(j, s, n, i, stack) && SkipStep(j, s, s', n, i, stack)
    ensures SameHeld(s, s')
  {
    forall w, v ensures Holds(s, w, v) <==> Holds(s', w, v) {
    }
    SameHolders(s, s');
  }

  lemma SameHolders(s: State, s': State)
    requires forall w, v {:trigger Holds(s, w, v)} {:trigger Holds(s', w, v)} :: Holds(s, w, v) <==> Holds(s', w, v)
    requires forall w, v {:trigger Holds(s, w, v)} :: Holds(s, w, v) ==>
      w in s'.pc && s'.pc[w].RecordingCancel? == s.pc[w].RecordingCancel?
    ensures SameHeld(s, s')
  {
    forall v ensures (Held(s, v) <==> Held(s', v)) && (HeldUnrecorded(s, v) <==> HeldUnrecorded(s', v)) {
      if w :| Holds(s, w, v) { assert Holds(s', w, v); }
      if w :| Holds(s', w, v) { assert Holds(s, w, v); }
      if w :| Holds(s, w, v) && s.pc[w].RecordingCancel? { assert Holds(s', w, v); }
      if w :| Holds(s', w, v) && s'.pc[w].RecordingCancel? { assert Holds(s, w, v); }
    }
  }

  lemma SkipLatch(j: Job, s: State, s': State, n: NodeId, i: nat, stack: seq<NodeId>)
    requires Shape(j, s) && AtCancel(j, s, n, i, stack) && SkipStep(j, s, s', n, i, stack) && Shape(j, s')
    requires LatchInv(j, s)
    ensures LatchInv(j, s')
  {
    SkipHeld(j, s, s', n, i, stack);
    hide LatchInv, SameHeld, Uncounted, Unrecorded;
    forall v | v in s.pc
      ensures (Uncounted(s', v) <==> Uncounted(s, v)) && (Unrecorded(s', v) <==> Unrecorded(s, v))
    {
      SameStageAt(s, s', v);
    }
    LatchFrame(j, s, s');
  }

  lemma SkipKeepsInv(j: Job, s: State, s': State, n: NodeId, i: nat, stack: seq<NodeId>)
    requires Inv(j, s) && AtCancel(j, s, n, i, stack) && SkipStep(j, s, s', n, i, stack)
    ensures Inv(j, s')
  {
    LocalAt(j, s, n);
    hide LocalInv, CauseInv, DoomInv, HoldInv, CounterInv, ClaimInv, EnqueueInv, ScanInv, ReadyInv, RunningInv,
      ClosureInv, LatchInv, ValidJob, CancelMove;
    SkipMove(j, s, s', n, i, stack);
    assert Shape(j, s') by { CancelMoveShape(j, s, s', n); }
    CancelMoveFrames(j, s, s', n);
    SkipHolds(j, s, s', n, i, stack);
    SkipDoom(j, s, s', n, i, stack);
    SkipClosure(j, s, s', n, i, stack);
    SkipLatch(j, s, s', n, i, stack);
  }

  lemma CancelMoveShape(j: Job, s: State, s': State, n: NodeId)
    requires Shape(j, s) && CancelMove(j, s, s', n)
    ensures Shape(j, s') && !s'.main.Resetting? == !s.main.Resetting?
  {
  }

  // ------------------------------------------------------------ pop and cancel

  /** The popped node `v` is Pending and gets cancelled. */
  ghost predicate AtCas(j: Job, s: State, n: NodeId, i: nat, stack: seq<NodeId>, v: NodeId)
    requires Shape(j, s)
  {
    && AtCancel(j, s, n, i, stack) && stack != [] && v == stack[|stack| - 1] && v != n
    && s.nodeState[v].Pending? && s.pc[v].Absent? && s.nodeState[n].Failed? && j.g.deps[v] != []
  }

  lemma CasFinds(j: Job, s: State, n: NodeId, i: nat, stack: seq<NodeId>)
    requires Shape(j, s) && LocalInv(j, s) && DoomInv(j, s) && AtCancel(j, s, n, i, stack)
    requires stack != [] && s.nodeState[stack[|stack| - 1]].Pending?
    ensures AtCas(j, s, n, i, stack, stack[|stack| - 1]) && Doomed(j, s, stack[|stack| - 1])
  {
    var v := stack[|stack| - 1];
    assert OnStack(s, n, v);
    assert Doomed(j, s, v);
    LocalAt(j, s, n);
    LocalAt(j, s, v);
  }

  lemma CasMove(j: Job, s: State, n: NodeId, i: nat, stack: seq<NodeId>, v: NodeId)
    requires Shape(j, s) && AtCas(j, s, n, i, stack, v)
    ensures CancelMove(j, s, Cancel(j, s, n, i, stack), n)
  {
  }

  /** A doomed node is not claimed by anyone, so the two propagations do not collide. */
  lemma DoomedUnclaimed(j: Job, s: State, v: NodeId)
    requires ValidJob(j) && Shape(j, s) && LocalInv(j, s) && CounterInv(j, s) && ClaimInv(j, s)
    requires v in s.pc && Doomed(j, s, v)
    ensures s.left[v] != 0 && forall w :: !Claims(j, s, w, v)
  {
    if s.left[v] == 0 {
      ZeroMeansDepsSucceeded(j, s, v);
      NotBothDoomed(j, s, v);
      assert false;
    }
  }

  lemma CasLocal(j: Job, s: State, s': State, n: NodeId, i: nat, stack: seq<NodeId>, v: NodeId)
    requires Shape(j, s) && AtCas(j, s, n, i, stack, v) && s' == Cancel(j, s, n, i, stack) && Shape(j, s')
    requires LocalInv(j, s)
    ensures LocalInv(j, s')
  {
    hide PcInRange, OwnSuccess;
    LocalAt(j, s, n);
    forall x | x in s'.pc && x != n && x != v ensures LocalOk(j, s', x) {
      LocalAt(j, s, x);
    }
  }

  lemma CasCause(j: Job, s: State, s': State, n: NodeId, i: nat, stack: seq<NodeId>, v: NodeId)
    requires Shape(j, s) && AtCas(j, s, n, i, stack, v) && s' == Cancel(j, s, n, i, stack) && Shape(j, s')
    requires CauseInv(j, s)
    ensures CauseInv(j, s')
  {
    forall x | x in s.pc && Claimed(s'.nodeState[x]) ensures DepsSucceeded(j, s', x) {
      assert DepsSucceeded(j, s, x);
    }
  }

  lemma CasClaims(j: Job, s: State, s': State, n: NodeId, i: nat, stack: seq<NodeId>, v: NodeId)
    requires Shape(j, s) && AtCas(j, s, n, i, stack, v) && s' == Cancel(j, s, n, i, stack) && Shape(j, s')
    requires ClaimInv(j, s) && SameClaims(j, s, s') && forall w :: !Claims(j, s, w, v)
    ensures ClaimInv(j, s')
  {
    hide Claims;
  }

  lemma CasEnqueues(j: Job, s: State, s': State, n: NodeId, i: nat, stack: seq<NodeId>, v: NodeId)
    requires Shape(j, s) && AtCas(j, s, n, i, stack, v) && s' == Cancel(j, s, n, i, stack) && Shape(j, s')
    requires EnqueueInv(j, s) && SameEnqueues(j, s, s')
    ensures EnqueueInv(j, s')
  {
    hide Enqueues;
  }

  lemma CasScan(j: Job, s: State, s': State, n: NodeId, i: nat, stack: seq<NodeId>, v: NodeId)
    requires Shape(j, s) && AtCas(j, s, n, i, stack, v) && s' == Cancel(j, s, n, i, stack) && Shape(j, s')
    requires ScanInv(j, s)
    ensures ScanInv(j, s')
  {
    hide PcInRange;
  }

  lemma CasDoom(j: Job, s: State, s': State, n: NodeId, i: nat, stack: seq<NodeId>, v: NodeId)
    requires Shape(j, s) && AtCas(j, s, n, i, stack, v) && s' == Cancel(j, s, n, i, stack) && CancelMove(j, s, s', n)
    requires DoomInv(j, s) && Doomed(j, s, v)
    ensures DoomInv(j, s')
  {
    hide Doomed;
    forall x | x in s'.pc[n].stack ensures x in s.pc && Doomed(j, s, x) {
      assert OnStack(s, n, x);
    }
    DoomAfterMove(j, s, s', n);
  }

  lemma CasHolds(j: Job, s: State, s': State, n: NodeId, i: nat, stack: seq<NodeId>, v: NodeId)
    requires Shape(j, s) && AtCas(j, s, n, i, stack, v) && s' == Cancel(j, s, n, i, stack)
    requires HoldInv(s)
    ensures forall w, x {:trigger Holds(s', w, x)} {:trigger Holds(s, w, x)} :: Holds(s', w, x) <==>
      Holds(s, w, x) || (w == n && x == v)
    ensures HoldInv(s') && !Held(s, v)
  {
    forall w, x ensures Holds(s', w, x) <==> Holds(s, w, x) || (w == n && x == v) {
    }
    hide Holds;
  }

  lemma CasCovered(j: Job, s: State, s': State, n: NodeId, i: nat, stack: seq<NodeId>, v: NodeId, u: NodeId, x: NodeId)
    requires Shape(j, s) && AtCas(j, s, n, i, stack, v) && s' == Cancel(j, s, n, i, stack) && Shape(j, s')
    requires forall w, y {:trigger Holds(s', w, y)} {:trigger Holds(s, w, y)} :: Holds(s', w, y) <==>
      Holds(s, w, y) || (w == n && y == v)
    requires u in s.pc && x in s.pc && (u == v || Covered(j, s, u, x))
    ensures Covered(j, s', u, x)
  {
    hide Ahead, Shape;
    if u == v {
      assert Holds(s', n, v);
      assert Held(s', u);
    } else if x != v {
      hide Holds;
      if w :| OnStack(s, w, x) {
        assert OnStack(s', w, x);
      } else if w :| Holds(s, w, u) {
        assert Holds(s', w, u);
      }
    }
  }

  lemma CasClosure(j: Job, s: State, s': State, n: NodeId, i: nat, stack: seq<NodeId>, v: NodeId)
    requires Shape(j, s) && AtCas(j, s, n, i, stack, v) && s' == Cancel(j, s, n, i, stack) && Shape(j, s')
    requires forall w, x {:trigger Holds(s', w, x)} {:trigger Holds(s, w, x)} :: Holds(s', w, x) <==>
      Holds(s, w, x) || (w == n && x == v)
    requires ClosureInv(j, s)
    ensures ClosureInv(j, s')
  {
    hide Covered, Holds;
    forall u, x | u in s.pc && x in s.pc && x in j.g.down[u] && Broken(s'.nodeState[u]) ensures Covered(j, s', u, x) {
      assert u != v ==> Covered(j, s, u, x);
      CasCovered(j, s, s', n, i, stack, v, u, x);
    }
  }

  lemma CasStage(j: Job, s: State, s': State, n: NodeId, i: nat, stack: seq<NodeId>, v: NodeId, x: NodeId)
    requires Shape(j, s) && AtCas(j, s, n, i, stack, v) && s' == Cancel(j, s, n, i, stack) && Shape(j, s')
    requires forall w, y {:trigger Holds(s', w, y)} {:trigger Holds(s, w, y)} :: Holds(s', w, y) <==>
      Holds(s, w, y) || (w == n && y == v)
    requires x in s.pc
    ensures (Uncounted(s', x) <==> Uncounted(s, x)) && (Unrecorded(s', x) <==> Unrecorded(s, x))
    ensures !Unrecorded(s, x) ==> s'.nodeState[x] == s.nodeState[x]
  {
    if x == v {
      assert Holds(s', n, v) && s'.pc[n].RecordingCancel?;
      assert Held(s', v) && HeldUnrecorded(s', v);
    } else {
      CasHeld(j, s, s', n, i, stack, v, x);
      hide Held, HeldUnrecorded;
    }
  }

  lemma CasHeld(j: Job, s: State, s': State, n: NodeId, i: nat, stack: seq<NodeId>, v: NodeId, x: NodeId)
    requires Shape(j, s) && AtCas(j, s, n, i, stack, v) && s' == Cancel(j, s, n, i, stack) && Shape(j, s') && x != v
    requires forall w, y {:trigger Holds(s', w, y)} {:trigger Holds(s, w, y)} :: Holds(s', w, y) <==>
      Holds(s, w, y) || (w == n && y == v)
    ensures (Held(s, x) <==> Held(s', x)) && (HeldUnrecorded(s, x) <==> HeldUnrecorded(s', x))
  {
    assert forall w :: Holds(s, w, x) ==> w != n;
    assert forall w :: w != n && w in s.pc ==> s'.pc[w] == s.pc[w];
    assert forall w :: Holds(s, w, x) ==> w in s.pc && w in s'.pc;
    hide Holds, AtCas, Cancel, Shape;
  }

  lemma CasLatch(j: Job, s: State, s': State, n: NodeId, i: nat, stack: seq<NodeId>, v: NodeId)
    requires Shape(j, s) && AtCas(j, s, n, i, stack, v) && s' == Cancel(j, s, n, i, stack) && Shape(j, s')
    requires forall w, x {:trigger Holds(s', w, x)} {:trigger Holds(s, w, x)} :: Holds(s', w, x) <==>
      Holds(s, w, x) || (w == n && x == v)
    requires LatchInv(j, s)
    ensures LatchInv(j, s')
  {
    hide LatchInv, Holds, Uncounted, Unrecorded;
    forall x | x in s.pc
      ensures (Uncounted(s', x) <==> Uncounted(s, x)) && (Unrecorded(s', x) <==> Unrecorded(s, x))
      ensures !Unrecorded(s, x) ==> s'.nodeState[x] == s.nodeState[x]
    {
      CasStage(j, s, s', n, i, stack, v, x);
    }
    LatchFrame(j, s, s');
  }

  lemma CasKeepsInv(j: Job, s: State, n: NodeId, i: nat, stack: seq<NodeId>)
    requires Inv(j, s) && AtCancel(j, s, n, i, stack)
    requires stack != [] && s.nodeState[stack[|stack| - 1]].Pending? && n in j.g.down
    ensures Inv(j, Cancel(j, s, n, i, stack))
  {
    hide LocalInv, CauseInv, DoomInv, HoldInv, CounterInv, ClaimInv, EnqueueInv, ScanInv, ReadyInv, RunningInv,
      ClosureInv, LatchInv, ValidJob, SameClaims, SameEnqueues, SameDecrements, InCancel, Held, Doomed, Holds, AtCas,
      CancelMove;
    var s' := Cancel(j, s, n, i, stack);
    var v := stack[|stack| - 1];
    CasFinds(j, s, n, i, stack);
    CasMove(j, s, n, i, stack, v);
    CancelMoveShape(j, s, s', n);
    CancelMoveSame(j, s, s', n);
    DoomedUnclaimed(j, s, v);
    CasLocal(j, s, s', n, i, stack, v);
    CasCause(j, s, s', n, i, stack, v);
    CasDoom(j, s, s', n, i, stack, v);
    CasHolds(j, s, s', n, i, stack, v);
    CasClosure(j, s, s', n, i, stack, v);
    CasLatch(j, s, s', n, i, stack, v);
    CasRest(j, s, s', n, i, stack, v);
  }

  lemma CasRest(j: Job, s: State, s': State, n: NodeId, i: nat, stack: seq<NodeId>, v: NodeId)
    requires Shape(j, s) && AtCas(j, s, n, i, stack, v) && s' == Cancel(j, s, n, i, stack) && Shape(j, s')
    requires SameClaims(j, s, s') && SameEnqueues(j, s, s') && SameDecrements(j, s, s')
    requires CounterInv(j, s) && ClaimInv(j, s) && EnqueueInv(j, s) && ScanInv(j, s) && ReadyInv(j, s)
      && RunningInv(j, s)
    requires forall w :: !Claims(j, s, w, v)
    requires forall x :: x in s.pc ==> (s.pc[x].Absent? <==> s'.pc[x].Absent?)
    ensures CounterInv(j, s') && ClaimInv(j, s') && EnqueueInv(j, s') && ScanInv(j, s') && ReadyInv(j, s')
      && RunningInv(j, s')
  {
    hide CounterInv, ClaimInv, EnqueueInv, ScanInv, ReadyInv, RunningInv, SameClaims, SameEnqueues, SameDecrements;
    CounterFrame(j, s, s');
    CasClaims(j, s, s', n, i, stack, v);
    CasEnqueues(j, s, s', n, i, stack, v);
    CasScan(j, s, s', n, i, stack, v);
    ReadyFrame(j, s, s');
    RunningFrame(j, s, s');
  }

  // ------------------------------------------------------------ record, count and push

  /** Worker `n` has just cancelled `v`; nobody else holds it. */
  ghost predicate AtHold(j: Job, s: State, n: NodeId, i: nat, stack: seq<NodeId>, v: NodeId)
    requires Shape(j, s)
  {
    && n in s.pc && i <= |j.g.down[n]| && v in s.pc && v != n && s.nodeState[n].Failed?
    && (s.pc[n] == RecordingCancel(i, stack, v) || s.pc[n] == CountingCancel(i, stack, v))
    && s.nodeState[v].Cancelled? && s.pc[v].Absent?
    && (forall x :: x in stack ==> x in s.pc)
    && (forall w :: Holds(s, w, v) ==> w == n)
  }

  lemma HoldFinds(j: Job, s: State, n: NodeId, i: nat, stack: seq<NodeId>, v: NodeId)
    requires Shape(j, s) && LocalInv(j, s) && HoldInv(s) && n in s.pc
    requires s.pc[n] == RecordingCancel(i, stack, v) || s.pc[n] == CountingCancel(i, stack, v)
    ensures AtHold(j, s, n, i, stack, v)
  {
    assert Holds(s, n, v);
    LocalAt(j, s, n);
    LocalAt(j, s, v);
  }

  ghost predicate HoldStep(j: Job, s: State, s': State, n: NodeId, i: nat, stack: seq<NodeId>, v: NodeId)
    requires Shape(j, s) && AtHold(j, s, n, i, stack, v)
  {
    if s.pc[n].RecordingCancel? then s' == RecordCancel(s, n, i, stack, v) else s' == CountCancel(j, s, n, i, stack, v)
  }

  lemma HoldMove(j: Job, s: State, s': State, n: NodeId, i: nat, stack: seq<NodeId>, v: NodeId)
    requires Shape(j, s) && AtHold(j, s, n, i, stack, v) && HoldStep(j, s, s', n, i, stack, v)
    ensures CancelMove(j, s, s', n) && s'.nodeState == s.nodeState
    ensures InCancel(s'.pc[n])
    ensures s'.pc[n].stack == if s.pc[n].RecordingCancel? then stack else stack + j.g.down[v]
  {
  }

  lemma HoldDoom(j: Job, s: State, s': State, n: NodeId, i: nat, stack: seq<NodeId>, v: NodeId)
    requires ValidJob(j) && Shape(j, s) && AtHold(j, s, n, i, stack, v) && HoldStep(j, s, s', n, i, stack, v)
    requires CancelMove(j, s, s', n) && s'.nodeState == s.nodeState && DoomInv(j, s)
    ensures DoomInv(j, s')
  {
    HoldMove(j, s, s', n, i, stack, v);
    forall x | x in s'.pc[n].stack ensures x in s.pc && Doomed(j, s, x) {
      if x in stack {
        assert OnStack(s, n, x);
      } else {
        BrokenDooms(j, s, v, x);
      }
    }
    forall x | x in s.nodeState && s'.nodeState[x].Cancelled? ensures Doomed(j, s, x) {
    }
    hide Doomed, DoomInv, HoldStep;
    DoomAfterMove(j, s, s', n);
  }

  lemma HoldHolds(j: Job, s: State, s': State, n: NodeId, i: nat, stack: seq<NodeId>, v: NodeId)
    requires Shape(j, s) && AtHold(j, s, n, i, stack, v) && HoldStep(j, s, s', n, i, stack, v)
    ensures forall w, x {:trigger Holds(s', w, x)} {:trigger Holds(s, w, x)} ::
              Holds(s', w, x) <==> Holds(s, w, x) && (s.pc[n].CountingCancel? ==> w != n)
  {
  }

  lemma HoldHoldInv(j: Job, s: State, s': State, n: NodeId, i: nat, stack: seq<NodeId>, v: NodeId)
    requires Shape(j, s) && AtHold(j, s, n, i, stack, v) && HoldStep(j, s, s', n, i, stack, v) && HoldInv(s)
    ensures HoldInv(s')
  {
    HoldHolds(j, s, s', n, i, stack, v);
    assert s'.nodeState == s.nodeState;
    hide Holds, HoldStep;
  }

  lemma HoldCovered(j: Job, s: State, s': State, n: NodeId, i: nat, stack: seq<NodeId>, v: NodeId, u: NodeId, x: NodeId)
    requires Shape(j, s) && AtHold(j, s, n, i, stack, v) && HoldStep(j, s, s', n, i, stack, v) && Shape(j, s')
    requires u in s.pc && x in s.pc && x in j.g.down[u] && Covered(j, s, u, x)
    ensures Covered(j, s', u, x)
  {
    hide PcInRange;
    HoldMove(j, s, s', n, i, stack, v);
    hide HoldStep, Ahead;
    if w :| OnStack(s, w, x) {
      assert OnStack(s', w, x);
    } else if w :| Holds(s, w, u) {
      HoldCoveredHeld(j, s, s', n, i, stack, v, u, x, w);
    } else if InOwnLoop(j, s, u, x) {
      HoldOwnLoop(j, s, s', n, i, stack, v, u, x);
    }
  }

  lemma HoldCoveredHeld(j: Job, s: State, s': State, n: NodeId, i: nat, stack: seq<NodeId>, v: NodeId, u: NodeId,
      x: NodeId, w: NodeId)
    requires Shape(j, s) && AtHold(j, s, n, i, stack, v) && HoldStep(j, s, s', n, i, stack, v) && Shape(j, s')
    requires u in s.pc && x in s.pc && x in j.g.down[u] && Holds(s, w, u)
    ensures Covered(j, s', u, x)
  {
    if w == n && s.pc[n].CountingCancel? {
      assert OnStack(s', n, x);
    } else {
      assert Holds(s', w, u);
      assert Held(s', u);
    }
  }

  lemma HoldOwnLoop(j: Job, s: State, s': State, n: NodeId, i: nat, stack: seq<NodeId>, v: NodeId, u: NodeId, x: NodeId)
    requires Shape(j, s) && AtHold(j, s, n, i, stack, v) && HoldStep(j, s, s', n, i, stack, v) && Shape(j, s')
    requires InOwnLoop(j, s, u, x)
    ensures InOwnLoop(j, s', u, x)
  {
    hide Ahead;
  }

  lemma HoldClosure(j: Job, s: State, s': State, n: NodeId, i: nat, stack: seq<NodeId>, v: NodeId)
    requires Shape(j, s) && AtHold(j, s, n, i, stack, v) && HoldStep(j, s, s', n, i, stack, v) && Shape(j, s')
    requires ClosureInv(j, s) && s'.nodeState == s.nodeState
    ensures ClosureInv(j, s')
  {
    hide Covered, HoldStep;
    forall u, x | u in s.pc && x in s.pc && x in j.g.down[u] && Broken(s'.nodeState[u]) ensures Covered(j, s', u, x) {
      assert Covered(j, s, u, x);
      HoldCovered(j, s, s', n, i, stack, v, u, x);
    }
  }

  /** Nodes other than `v` keep their standing. */
  lemma HoldStageElsewhere(j: Job, s: State, s': State, n: NodeId, i: nat, stack: seq<NodeId>, v: NodeId, x: NodeId)
    requires Shape(j, s) && AtHold(j, s, n, i, stack, v) && HoldStep(j, s, s', n, i, stack, v) && Shape(j, s')
    requires x in s.pc && x != v
    ensures (Uncounted(s', x) <==> Uncounted(s, x)) && (Unrecorded(s', x) <==> Unrecorded(s, x))
  {
    hide Held, HeldUnrecorded, PcInRange;
    HoldHeldElsewhere(j, s, s', n, i, stack, v, x);
    assert s'.nodeState == s.nodeState;
  }

  lemma HoldHeldElsewhere(j: Job, s: State, s': State, n: NodeId, i: nat, stack: seq<NodeId>, v: NodeId, x: NodeId)
    requires Shape(j, s) && AtHold(j, s, n, i, stack, v) && HoldStep(j, s, s', n, i, stack, v) && Shape(j, s')
    requires x in s.pc && x != v
    ensures (Held(s, x) <==> Held(s', x)) && (HeldUnrecorded(s, x) <==> HeldUnrecorded(s', x))
  {
    hide PcInRange;
    assert forall w :: Holds(s, w, x) ==> w != n;
    HoldHolds(j, s, s', n, i, stack, v);
    assert forall w :: w != n && w in s.pc ==> s'.pc[w] == s.pc[w];
    assert forall w :: Holds(s, w, x) ==> w in s.pc && w in s'.pc;
    hide Holds, HoldStep, AtHold, Shape;
  }

  lemma HoldStageAt(j: Job, s: State, s': State, n: NodeId, i: nat, stack: seq<NodeId>, v: NodeId)
    requires Shape(j, s) && AtHold(j, s, n, i, stack, v) && HoldStep(j, s, s', n, i, stack, v) && Shape(j, s')
    ensures Uncounted(s, v) && (Uncounted(s', v) <==> s.pc[n].RecordingCancel?)
    ensures (Unrecorded(s, v) <==> s.pc[n].RecordingCancel?) && !Unrecorded(s', v)
  {
    HoldHolds(j, s, s', n, i, stack, v);
    assert Holds(s, n, v);
    assert forall w :: Holds(s', w, v) ==> w == n;
    assert s.pc[n].RecordingCancel? ==> Holds(s', n, v);
    assert s'.nodeState == s.nodeState && s'.pc[v] == s.pc[v] && !s'.pc[n].RecordingCancel?;
    hide Holds, HoldStep, Shape;
  }

  lemma HoldLatch(j: Job, s: State, s': State, n: NodeId, i: nat, stack: seq<NodeId>, v: NodeId)
    requires Shape(j, s) && AtHold(j, s, n, i, stack, v) && HoldStep(j, s, s', n, i, stack, v) && Shape(j, s')
    requires LatchInv(j, s)
    ensures LatchInv(j, s')
  {
    hide LatchInv, Uncounted, Unrecorded, Shape;
    HoldStageAt(j, s, s', n, i, stack, v);
    assert s'.nodeState == s.nodeState;
    forall x | x in s.pc && x != v
      ensures (Uncounted(s', x) <==> Uncounted(s, x)) && (Unrecorded(s', x) <==> Unrecorded(s, x))
    {
      HoldStageElsewhere(j, s, s', n, i, stack, v, x);
    }
    if s.pc[n].RecordingCancel? {
      RecordOne(j, s, s', v);
    } else {
      CountDown(j, s, s', v);
    }
  }

  lemma HoldKeepsInv(j: Job, s: State, s': State, n: NodeId, i: nat, stack: seq<NodeId>, v: NodeId)
    requires Inv(j, s) && n in s.pc
    requires s.pc[n] == RecordingCancel(i, stack, v) || s.pc[n] == CountingCancel(i, stack, v)
    requires AtHold(j, s, n, i, stack, v) && HoldStep(j, s, s', n, i, stack, v)
    ensures Inv(j, s')
  {
    hide LocalInv, CauseInv, DoomInv, HoldInv, CounterInv, ClaimInv, EnqueueInv, ScanInv, ReadyInv, RunningInv,
      ClosureInv, LatchInv, ValidJob, CancelMove, AtHold, HoldStep, PcInRange;
    HoldMove(j, s, s', n, i, stack, v);
    CancelMoveShape(j, s, s', n);
    CancelMoveFrames(j, s, s', n);
    HoldHoldInv(j, s, s', n, i, stack, v);
    HoldDoom(j, s, s', n, i, stack, v);
    HoldClosure(j, s, s', n, i, stack, v);
    HoldLatch(j, s, s', n, i, stack, v);
  }
}
