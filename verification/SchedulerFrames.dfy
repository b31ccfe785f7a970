/** When a step leaves alone what a group of the invariant looks at, it keeps the group. */
module SchedulerFrames {
  import opened DependencyGraph
  import opened NodeExecution
  import opened SchedulerModel
  import opened SchedulerInvariant

  /** The workers' positions agree on everything the counters depend on. */
  ghost predicate SameDecrements(j: Job, s: State, s': State)
    requires Shape(j, s) && Shape(j, s')
  {
    forall u :: u in j.g.down ==> Decremented(j, u, s.pc[u]) == Decremented(j, u, s'.pc[u])
  }

  ghost predicate SameClaims(j: Job, s: State, s': State)
    requires Shape(j, s) && Shape(j, s')
  {
    forall w, v {:trigger Claims(j, s, w, v)} {:trigger Claims(j, s', w, v)} :: Claims(j, s, w, v) <==>
        Claims(j, s', w, v)
  }

  ghost predicate SameEnqueues(j: Job, s: State, s': State)
    requires Shape(j, s) && Shape(j, s')
  {
    forall w, v {:trigger Enqueues(j, s, w, v)} {:trigger Enqueues(j, s', w, v)} :: Enqueues(j, s, w, v) <==>
        Enqueues(j, s', w, v)
  }

  ghost predicate SameCancels(s: State, s': State) {
    && (forall w, v {:trigger OnStack(s, w, v)} {:trigger OnStack(s', w, v)} :: OnStack(s, w, v) <==> OnStack(s', w, v))
    && (forall w, v {:trigger Holds(s, w, v)} {:trigger Holds(s', w, v)} :: Holds(s, w, v) <==> Holds(s', w, v))
  }

  /** A position with no part in the claim protocol, resp. with nothing left to cancel. */
  ghost predicate NoClaim(pc: Pc) {
    !pc.Claiming? && !pc.Enqueueing?
  }

  ghost predicate NoCancel(pc: Pc) {
    !pc.RecordingCancel? && !pc.CountingCancel? && (pc.Cancelling? ==> pc.stack == [])
  }

  lemma ClaimsAfterMove(j: Job, s: State, s': State)
    requires Shape(j, s) && Shape(j, s')
    requires forall w :: w in s.pc ==> s'.pc[w] == s.pc[w] || (!s.pc[w].Claiming? && !s'.pc[w].Claiming?)
    ensures SameClaims(j, s, s')
  {
  }

  lemma EnqueuesAfterMove(j: Job, s: State, s': State)
    requires Shape(j, s) && Shape(j, s')
    requires forall w :: w in s.pc ==> s'.pc[w] == s.pc[w] || (!s.pc[w].Enqueueing? && !s'.pc[w].Enqueueing?)
    ensures SameEnqueues(j, s, s')
  {
  }

  /** Workers that change position have nothing to cancel before or after. */
  ghost predicate CancelsApart(s: State, s': State) {
    && s.pc.Keys == s'.pc.Keys
    && (forall w :: w in s.pc ==> s'.pc[w] == s.pc[w] || (NoCancel(s.pc[w]) && NoCancel(s'.pc[w])))
  }

  lemma CancelsAfterMove(s: State, s': State)
    requires CancelsApart(s, s')
    ensures SameCancels(s, s')
  {
  }

  lemma LocalAfterMove(j: Job, s: State, s': State, n: NodeId)
    requires Shape(j, s) && Shape(j, s') && n in s.pc && LocalInv(j, s)
    requires forall x :: x in s.pc && x != n ==> s'.pc[x] == s.pc[x] && s'.nodeState[x] == s.nodeState[x]
    requires LocalOk(j, s', n)
    ensures LocalInv(j, s')
  {
    forall x | x in s'.pc ensures LocalOk(j, s', x) {
      assert LocalOk(j, s, x);
    }
  }

  lemma CounterFrame(j: Job, s: State, s': State)
    requires Shape(j, s) && Shape(j, s')
    requires CounterInv(j, s) && s'.left == s.left && SameDecrements(j, s, s')
    ensures CounterInv(j, s')
  {
    forall v | v in s'.pc ensures s'.left[v] == |Remaining(j, s'.pc, v)| {
      assert Remaining(j, s'.pc, v) == Remaining(j, s.pc, v);
    }
  }

  /** Nodes may be claimed and may end their run; they are not cancelled. */
  ghost predicate Forward(s: State, s': State)
    requires s.nodeState.Keys == s'.nodeState.Keys
  {
    forall x :: x in s.nodeState ==>
      || s'.nodeState[x] == s.nodeState[x]
      || (s.nodeState[x].Pending? && s'.nodeState[x].Running?)
      || (s.nodeState[x].Running? && (s'.nodeState[x].Success? || s'.nodeState[x].Failed?))
  }

  lemma CauseFrame(j: Job, s: State, s': State)
    requires Shape(j, s) && Shape(j, s')
    requires CauseInv(j, s) && Forward(s, s')
    requires forall v :: v in s.pc && s.nodeState[v].Pending? && s'.nodeState[v].Running? ==> DepsSucceeded(j, s, v)
    ensures CauseInv(j, s')
  {
    forall v | v in s.pc && Claimed(s'.nodeState[v]) ensures DepsSucceeded(j, s', v) {
      assert DepsSucceeded(j, s, v);
    }
  }

  lemma DoomedKept(j: Job, s: State, s': State, v: NodeId)
    requires Shape(j, s) && Shape(j, s') && v in s.pc && Doomed(j, s, v)
    requires forall x :: x in s.nodeState && Broken(s.nodeState[x]) ==> Broken(s'.nodeState[x])
    ensures Doomed(j, s', v)
  {
  }

  lemma ForwardBroken(s: State, s': State)
    requires s.nodeState.Keys == s'.nodeState.Keys && Forward(s, s')
    ensures forall x :: x in s.nodeState && Broken(s.nodeState[x]) ==> Broken(s'.nodeState[x])
    ensures forall x :: x in s.nodeState && s'.nodeState[x].Cancelled? ==> s.nodeState[x].Cancelled?
  {
  }

  lemma StacksInTable(j: Job, s: State)
    requires Shape(j, s)
    ensures forall w, v {:trigger OnStack(s, w, v)} :: OnStack(s, w, v) ==> v in s.pc
  {
    forall w, v | OnStack(s, w, v) ensures v in s.pc {
      assert PcInRange(j, w, s.pc[w]);
    }
  }

  lemma SameTables(j: Job, s: State, s': State)
    requires Shape(j, s) && Shape(j, s')
    ensures s'.pc.Keys == s.pc.Keys && s'.nodeState.Keys == s.nodeState.Keys == s.pc.Keys
  {
  }

  lemma DoomFrame(j: Job, s: State, s': State)
    requires Shape(j, s) && Shape(j, s')
    requires DoomInv(j, s) && SameCancels(s, s') && Forward(s, s')
    ensures DoomInv(j, s')
  {
    hide Doomed, Forward, Shape, OnStack, Holds, Broken;
    SameTables(j, s, s');
    ForwardBroken(s, s');
    forall v | v in s.pc && Doomed(j, s, v) ensures Doomed(j, s', v) {
      DoomedKept(j, s, s', v);
    }
    StacksInTable(j, s);
  }

  lemma HoldFrame(s: State, s': State)
    requires HoldInv(s) && SameCancels(s, s')
    requires s.nodeState.Keys == s'.nodeState.Keys
    requires forall x :: x in s.nodeState && s.nodeState[x].Cancelled? ==> s'.nodeState[x].Cancelled?
    ensures HoldInv(s')
  {
  }

  lemma ClaimFrame(j: Job, s: State, s': State)
    requires Shape(j, s) && Shape(j, s')
    requires ClaimInv(j, s) && SameClaims(j, s, s') && s'.left == s.left
    requires forall x :: x in s.pc && s.nodeState[x].Pending? ==> s'.nodeState[x].Pending?
    requires forall x :: x in s.pc && Claimed(s'.nodeState[x]) ==> Claimed(s.nodeState[x])
    ensures ClaimInv(j, s')
  {
  }

  /** Nodes outside the pool keep their state. */
  ghost predicate SameOutside(j: Job, s: State, s': State)
    requires Shape(j, s) && Shape(j, s')
  {
    forall x :: x in s.pc && s.pc[x].Absent? ==> s'.pc[x].Absent? && s'.nodeState[x] == s.nodeState[x]
  }

  lemma EnqueueFrame(j: Job, s: State, s': State)
    requires Shape(j, s) && Shape(j, s')
    requires EnqueueInv(j, s) && SameEnqueues(j, s, s') && SameOutside(j, s, s')
    ensures EnqueueInv(j, s')
  {
  }

  lemma ScanFrame(j: Job, s: State, s': State)
    requires Shape(j, s) && Shape(j, s')
    requires ScanInv(j, s) && s'.main == s.main && SameOutside(j, s, s')
    ensures ScanInv(j, s')
  {
  }

  lemma ReadyFrame(j: Job, s: State, s': State)
    requires Shape(j, s) && Shape(j, s')
    requires ReadyInv(j, s) && SameClaims(j, s, s') && s'.left == s.left && s'.main == s.main
    requires forall x :: x in s.pc && s'.nodeState[x].Pending? ==> s.nodeState[x].Pending?
    ensures ReadyInv(j, s')
  {
    forall v | v in s.pc && Claimable(j, s, v) ensures Claimable(j, s', v) {
      if w :| Claims(j, s, w, v) {
        assert Claims(j, s', w, v);
      } else {
        var k :| 0 <= k < |j.g.nodes| && j.g.nodes[k] == v && AheadOfScan(s, k);
        assert AheadOfScan(s', k);
      }
    }
  }

  lemma RunningFrame(j: Job, s: State, s': State)
    requires Shape(j, s) && Shape(j, s')
    requires RunningInv(j, s) && SameEnqueues(j, s, s') && s'.main == s.main
    requires forall x :: x in s.pc && s'.nodeState[x].Running? && s'.pc[x].Absent? ==>
      s.nodeState[x].Running? && s.pc[x].Absent?
    ensures RunningInv(j, s')
  {
    forall v | v in s.pc && BeingEnqueued(j, s, v) ensures BeingEnqueued(j, s', v) {
      if !MainEnqueues(j, s, v) {
        var w :| Enqueues(j, s, w, v);
        assert Enqueues(j, s', w, v);
      }
    }
  }

  lemma ClosureFrame(j: Job, s: State, s': State)
    requires Shape(j, s) && Shape(j, s')
    requires ClosureInv(j, s) && SameCancels(s, s')
    requires forall x :: x in s.pc && s'.nodeState[x].Pending? ==> s.nodeState[x].Pending?
    requires forall u, v {:trigger InOwnLoop(j, s', u, v)} :: u in s.pc && v in j.g.down[u] ==>
               (InOwnLoop(j, s, u, v) ==> InOwnLoop(j, s', u, v))
    requires forall u, v {:trigger InOwnLoop(j, s', u, v)} :: u in s.pc && v in j.g.down[u] ==>
               (Broken(s'.nodeState[u]) && !Broken(s.nodeState[u]) ==> InOwnLoop(j, s', u, v))
    ensures ClosureInv(j, s')
  {
    forall u, v | u in s.pc && v in s.pc && v in j.g.down[u] && Broken(s'.nodeState[u]) ensures Covered(j, s', u, v) {
      if Broken(s.nodeState[u]) {
        assert Covered(j, s, u, v);
        if w :| OnStack(s, w, v) {
          assert OnStack(s', w, v);
        } else if w :| Holds(s, w, u) {
          assert Holds(s', w, u) && Held(s', u);
        }
      }
    }
  }

  ghost predicate SameHeld(s: State, s': State) {
    forall v :: (Held(s, v) <==> Held(s', v)) && (HeldUnrecorded(s, v) <==> HeldUnrecorded(s', v))
  }

  lemma HeldAfterMove(s: State, s': State)
    requires CancelsApart(s, s')
    ensures SameHeld(s, s')
  {
    forall v ensures Held(s, v) <==> Held(s', v) {
      if w :| Holds(s, w, v) { assert Holds(s', w, v); }
      if w :| Holds(s', w, v) { assert Holds(s, w, v); }
    }
    forall v ensures HeldUnrecorded(s, v) <==> HeldUnrecorded(s', v) {
      if w :| Holds(s, w, v) && s.pc[w].RecordingCancel? { assert Holds(s', w, v); }
      if w :| Holds(s', w, v) && s'.pc[w].RecordingCancel? { assert Holds(s, w, v); }
    }
  }

  lemma RecordedKept(s: State, s': State, st: NodeState)
    requires s'.pc.Keys == s.pc.Keys && s'.nodeState.Keys == s.nodeState.Keys == s.pc.Keys
    requires forall v :: v in s.pc ==> (Unrecorded(s', v) <==> Unrecorded(s, v))
    requires forall v :: v in s.pc && !Unrecorded(s, v) ==> s'.nodeState[v] == s.nodeState[v]
    ensures RecordedAs(s', st) == RecordedAs(s, st)
  {
    hide Unrecorded;
  }

  lemma LatchFrame(j: Job, s: State, s': State)
    requires Shape(j, s) && Shape(j, s')
    requires LatchInv(j, s) && s'.latch == s.latch && s'.metrics == s.metrics
    requires forall v :: v in s.pc ==> (Uncounted(s', v) <==> Uncounted(s, v))
    requires forall v :: v in s.pc ==> (Unrecorded(s', v) <==> Unrecorded(s, v))
    requires forall v :: v in s.pc && !Unrecorded(s, v) ==> s'.nodeState[v] == s.nodeState[v]
    ensures LatchInv(j, s')
  {
    hide Uncounted, Unrecorded, Shape;
    SameTables(j, s, s');
    assert UncountedSet(s') == UncountedSet(s);
    RecordedKept(s, s', Success);
    RecordedKept(s, s', Failed);
    RecordedKept(s, s', Cancelled);
  }

  /** One node counts down. */
  lemma CountDown(j: Job, s: State, s': State, x: NodeId)
    requires Shape(j, s) && Shape(j, s')
    requires LatchInv(j, s) && s'.latch == s.latch - 1 && s'.metrics == s.metrics && s'.nodeState == s.nodeState
    requires x in s.pc && Uncounted(s, x) && !Uncounted(s', x)
    requires forall v :: v in s.pc && v != x ==> (Uncounted(s', v) <==> Uncounted(s, v))
    requires forall v :: v in s.pc ==> (Unrecorded(s', v) <==> Unrecorded(s, v))
    ensures LatchInv(j, s')
  {
    hide Uncounted, Unrecorded, Shape, RecordedAs;
    SameTables(j, s, s');
    assert UncountedSet(s') == UncountedSet(s) - {x};
    RecordedKept(s, s', Success);
    RecordedKept(s, s', Failed);
    RecordedKept(s, s', Cancelled);
  }

  function Bump(m: Metrics, st: NodeState): Metrics {
    match st
    case Success => m.(success := m.success + 1)
    case Failed => m.(failed := m.failed + 1)
    case _ => m.(cancelled := m.cancelled + 1)
  }

  /** One node's final state is recorded in the metrics. */
  lemma RecordOne(j: Job, s: State, s': State, x: NodeId)
    requires Shape(j, s) && Shape(j, s')
    requires LatchInv(j, s) && s'.latch == s.latch && s'.nodeState == s.nodeState
    requires x in s.pc && Unrecorded(s, x) && !Unrecorded(s', x)
    requires s.nodeState[x] in {Success, Failed, Cancelled} && s'.metrics == Bump(s.metrics, s.nodeState[x])
    requires forall v :: v in s.pc ==> (Uncounted(s', v) <==> Uncounted(s, v))
    requires forall v :: v in s.pc && v != x ==> (Unrecorded(s', v) <==> Unrecorded(s, v))
    ensures LatchInv(j, s')
  {
    assert UncountedSet(s') == UncountedSet(s);
    RecordedAfter(s, s', x, Success);
    RecordedAfter(s, s', x, Failed);
    RecordedAfter(s, s', x, Cancelled);
  }

  lemma RecordedAfter(s: State, s': State, x: NodeId, st: NodeState)
    requires x in s.pc && s.pc.Keys == s'.pc.Keys && s.nodeState.Keys == s.pc.Keys && s'.nodeState == s.nodeState
    requires Unrecorded(s, x) && !Unrecorded(s', x)
    requires forall v :: v in s.pc && v != x ==> (Unrecorded(s', v) <==> Unrecorded(s, v))
    ensures |RecordedAs(s', st)| == |RecordedAs(s, st)| + if s.nodeState[x] == st then 1 else 0
  {
    if s.nodeState[x] == st {
      assert RecordedAs(s', st) == RecordedAs(s, st) + {x};
    } else {
      assert RecordedAs(s', st) == RecordedAs(s, st);
    }
  }

  /** A node whose state is kept and whose worker, if it moved, was neither recording nor
      counting, keeps its standing with latch and metrics. */
  lemma SameStageAt(s: State, s': State, v: NodeId)
    requires v in s.pc && v in s'.pc && v in s.nodeState && v in s'.nodeState && SameHeld(s, s')
    requires s'.nodeState[v] == s.nodeState[v] || (s.nodeState[v].Pending? && s'.nodeState[v].Running?)
    requires s'.pc[v] == s.pc[v]
             || (!s.pc[v].Recording? && !s.pc[v].Counting? && !s'.pc[v].Recording? && !s'.pc[v].Counting?)
    ensures (Uncounted(s', v) <==> Uncounted(s, v)) && (Unrecorded(s', v) <==> Unrecorded(s, v))
  {
  }
}
