/** The first half of `executeNode`: attempts, storing the outcome, recording it in the
    metrics and counting down the latch. */
module SchedulerOutcomeSteps {
  import opened DependencyGraph
  import opened NodeExecution
  import opened SchedulerModel
  import opened SchedulerInvariant
  import opened SchedulerFrames

  /** A step moves one worker outside the claim and cancel protocols and changes no table
      but, possibly, the state of its own node from Running to its outcome. */
  ghost predicate Moves(j: Job, s: State, s': State, n: NodeId)
    requires Shape(j, s)
  {
    && Shape(j, s') && n in s.pc
    && s'.pc == s.pc[n := s'.pc[n]] && s'.main == s.main && s'.left == s.left
    && s'.nodeState == s.nodeState[n := s'.nodeState[n]]
    && !s.pc[n].Absent? && !s'.pc[n].Absent? && Forward(s, s') && !s.nodeState[n].Pending?
    && NoClaim(s.pc[n]) && NoClaim(s'.pc[n]) && NoCancel(s.pc[n]) && NoCancel(s'.pc[n])
    && Decremented(j, n, s.pc[n]) == Decremented(j, n, s'.pc[n])
    && LocalOk(j, s', n)
    && (forall v :: v in j.g.down[n] && InOwnLoop(j, s, n, v) ==> InOwnLoop(j, s', n, v))
    && (Broken(s'.nodeState[n]) && !Broken(s.nodeState[n]) ==> forall v :: v in j.g.down[n] ==> InOwnLoop(j, s', n, v))
  }

  lemma MoveFrames(j: Job, s: State, s': State, n: NodeId)
    requires Inv(j, s) && Moves(j, s, s', n)
    ensures SameCancels(s, s')
    ensures LocalInv(j, s') && CauseInv(j, s') && DoomInv(j, s') && HoldInv(s') && CounterInv(j, s')
    ensures ClaimInv(j, s') && EnqueueInv(j, s') && ScanInv(j, s') && ReadyInv(j, s') && RunningInv(j, s')
      && ClosureInv(j, s')
  {
    hide LocalInv, CauseInv, DoomInv, HoldInv, CounterInv, ClaimInv, EnqueueInv, ScanInv, ReadyInv, RunningInv,
      ClosureInv, LatchInv, SameClaims, SameEnqueues, SameCancels, LocalOk, ValidJob, PcInRange, Broken,
      UntraversedAt;
    ClaimsAfterMove(j, s, s');
    EnqueuesAfterMove(j, s, s');
    CancelsAfterMove(s, s');
    LocalAfterMove(j, s, s', n);
    CauseFrame(j, s, s');
    DoomFrame(j, s, s');
    HoldFrame(s, s');
    CounterFrame(j, s, s');
    ClaimFrame(j, s, s');
    EnqueueFrame(j, s, s');
    ScanFrame(j, s, s');
    ReadyFrame(j, s, s');
    RunningFrame(j, s, s');
    QuietClosure(j, s, s', n);
  }

  ghost predicate SameStage(s: State, s': State, n: NodeId)
    requires n in s.nodeState && n in s'.nodeState
  {
    && (Uncounted(s', n) <==> Uncounted(s, n))
    && (Unrecorded(s', n) <==> Unrecorded(s, n))
    && (!Unrecorded(s, n) ==> s'.nodeState[n] == s.nodeState[n])
  }

  /** The steps that touch neither latch nor metrics. */
  ghost predicate Quiet(j: Job, s: State, s': State, n: NodeId)
    requires Shape(j, s)
  {
    Moves(j, s, s', n) && s'.latch == s.latch && s'.metrics == s.metrics && SameStage(s, s', n)
  }

  lemma QuietMove(j: Job, s: State, s': State, n: NodeId)
    requires Inv(j, s) && Quiet(j, s, s', n)
    ensures Inv(j, s')
  {
    hide LocalInv, CauseInv, DoomInv, HoldInv, CounterInv, ClaimInv, EnqueueInv, ScanInv, ReadyInv, RunningInv,
      ClosureInv, LatchInv, LocalOk, ValidJob, PcInRange;
    MoveFrames(j, s, s', n);
    QuietLatch(j, s, s', n);
  }

  lemma QuietClosure(j: Job, s: State, s': State, n: NodeId)
    requires Shape(j, s) && Shape(j, s') && n in s.pc && ClosureInv(j, s) && SameCancels(s, s')
    requires s'.pc == s.pc[n := s'.pc[n]] && s'.nodeState == s.nodeState[n := s'.nodeState[n]] && Forward(s, s')
    requires forall v :: v in j.g.down[n] && InOwnLoop(j, s, n, v) ==> InOwnLoop(j, s', n, v)
    requires Broken(s'.nodeState[n]) && !Broken(s.nodeState[n]) ==> forall v :: v in j.g.down[n] ==>
      InOwnLoop(j, s', n, v)
    ensures ClosureInv(j, s')
  {
    hide SameCancels, ClosureInv;
    forall u, v | u in s.pc && v in j.g.down[u] && u != n && InOwnLoop(j, s, u, v) ensures InOwnLoop(j, s', u, v) {
    }
    ClosureFrame(j, s, s');
  }

  /** Only the moving worker's own node can change its standing with latch and metrics. */
  ghost predicate SameStageBut(s: State, s': State, n: NodeId)
  {
    forall v {:trigger Uncounted(s', v)} {:trigger Unrecorded(s', v)} :: v in s.pc && v != n ==>
      (Uncounted(s', v) <==> Uncounted(s, v)) && (Unrecorded(s', v) <==> Unrecorded(s, v))
  }

  lemma StageFrame(j: Job, s: State, s': State, n: NodeId)
    requires Shape(j, s) && Moves(j, s, s', n)
    ensures SameStageBut(s, s', n)
  {
    HeldAfterMove(s, s');
    hide Moves, Held, HeldUnrecorded, Uncounted, Unrecorded;
    forall v | v in s.pc && v != n
      ensures (Uncounted(s', v) <==> Uncounted(s, v)) && (Unrecorded(s', v) <==> Unrecorded(s, v))
    {
      MovesElsewhere(j, s, s', n, v);
      SameStageElsewhere(s, s', v);
    }
  }

  lemma MovesElsewhere(j: Job, s: State, s': State, n: NodeId, v: NodeId)
    requires Shape(j, s) && Moves(j, s, s', n) && v in s.pc && v != n
    ensures v in s.nodeState && v in s'.nodeState && v in s'.pc
    ensures s'.pc[v] == s.pc[v] && s'.nodeState[v] == s.nodeState[v]
  {
  }

  lemma QuietLatch(j: Job, s: State, s': State, n: NodeId)
    requires Shape(j, s) && LatchInv(j, s) && Quiet(j, s, s', n)
    ensures LatchInv(j, s')
  {
    StageFrame(j, s, s', n);
    MovesShape(j, s, s', n);
    forall v | v in s.pc && v != n ensures s'.nodeState[v] == s.nodeState[v] {
      MovesElsewhere(j, s, s', n, v);
    }
    hide LatchInv, Moves, Uncounted, Unrecorded;
    LatchFrame(j, s, s');
  }

  lemma MovesShape(j: Job, s: State, s': State, n: NodeId)
    requires Shape(j, s) && Moves(j, s, s', n)
    ensures Shape(j, s')
  {
  }

  lemma SameStageElsewhere(s: State, s': State, v: NodeId)
    requires v in s.pc && v in s'.pc && v in s.nodeState && v in s'.nodeState
    requires s'.pc[v] == s.pc[v] && s'.nodeState[v] == s.nodeState[v] && SameHeld(s, s')
    ensures (Uncounted(s', v) <==> Uncounted(s, v)) && (Unrecorded(s', v) <==> Unrecorded(s, v))
  {
  }

  lemma LocalAt(j: Job, s: State, n: NodeId)
    requires Shape(j, s) && LocalInv(j, s) && n in s.pc
    ensures LocalOk(j, s, n)
  {
  }

  lemma NotHeld(s: State, n: NodeId)
    requires HoldInv(s) && n in s.nodeState && !s.nodeState[n].Cancelled?
    ensures !Held(s, n) && !HeldUnrecorded(s, n)
  {
  }

  /** A position without indices is always in range. */
  ghost predicate NoIndex(pc: Pc) {
    pc.Queued? || pc.Attempting? || pc.Storing? || pc.Recording? || pc.Counting? || pc.Finished?
  }

  lemma ShapeKept(j: Job, s: State, s': State, n: NodeId)
    requires Shape(j, s) && n in s.pc && n in s'.pc && s'.pc == s.pc[n := s'.pc[n]] && NoIndex(s'.pc[n])
    requires s'.nodeState.Keys == s.nodeState.Keys && s'.left.Keys == s.left.Keys && s'.main == s.main
    ensures Shape(j, s')
  {
    assert PcInRange(j, n, s'.pc[n]);
    hide PcInRange;
  }

  lemma InTables(j: Job, s: State, n: NodeId)
    requires Shape(j, s) && n in s.pc
    ensures n in j.g.down && n in j.spec && n in s.nodeState && n in s.left
  {
  }

  lemma StartQuiet(j: Job, s: State, n: NodeId)
    requires Shape(j, s) && n in s.pc && LocalOk(j, s, n)
    requires s.pc[n].Queued?
    ensures Quiet(j, s, StartTask(j, s, n), n)
  {
    hide Held, HeldUnrecorded, Shape;
    InTables(j, s, n);
    ShapeKept(j, s, StartTask(j, s, n), n);
  }

  lemma StartStep(j: Job, s: State, n: NodeId)
    requires Inv(j, s) && n in s.pc
    requires s.pc[n].Queued?
    ensures Inv(j, StartTask(j, s, n))
  {
    hide LocalInv, Quiet, LocalOk;
    LocalAt(j, s, n);
    StartQuiet(j, s, n);
    QuietMove(j, s, StartTask(j, s, n), n);
  }

  lemma AttemptQuiet(j: Job, s: State, n: NodeId, k: nat)
    requires Shape(j, s) && n in s.pc && LocalOk(j, s, n)
    requires s.pc[n] == Attempting(k)
    ensures Quiet(j, s, Attempt1(j, s, n, k), n)
  {
    hide Held, HeldUnrecorded, Shape;
    InTables(j, s, n);
    ShapeKept(j, s, Attempt1(j, s, n, k), n);
    SucceedsIff(j.spec[n].body, j.spec[n].maxRetries);
  }

  lemma AttemptStep(j: Job, s: State, n: NodeId, k: nat)
    requires Inv(j, s) && n in s.pc
    requires s.pc[n] == Attempting(k)
    ensures Inv(j, Attempt1(j, s, n, k))
  {
    hide LocalInv, Quiet, LocalOk;
    LocalAt(j, s, n);
    AttemptQuiet(j, s, n, k);
    QuietMove(j, s, Attempt1(j, s, n, k), n);
  }

  lemma StoreQuiet(j: Job, s: State, n: NodeId, ok: bool)
    requires Shape(j, s) && n in s.pc && LocalOk(j, s, n)
    requires s.pc[n] == Storing(ok)
    ensures Quiet(j, s, StoreOutcome(s, n, ok), n)
  {
    hide Held, HeldUnrecorded, Shape;
    InTables(j, s, n);
    ShapeKept(j, s, StoreOutcome(s, n, ok), n);
  }

  lemma StoreStep(j: Job, s: State, n: NodeId, ok: bool)
    requires Inv(j, s) && n in s.pc
    requires s.pc[n] == Storing(ok)
    ensures Inv(j, StoreOutcome(s, n, ok))
  {
    hide LocalInv, Quiet, LocalOk;
    LocalAt(j, s, n);
    StoreQuiet(j, s, n, ok);
    QuietMove(j, s, StoreOutcome(s, n, ok), n);
  }

  lemma FinishHeld(s: State, n: NodeId, ok: bool, d: nat)
    requires n in s.pc && s.pc[n] == if ok then Decrementing(d) else Cancelling(d, [])
    ensures SameHeld(s, SetPc(s, n, Finished(ok)))
  {
    HeldAfterMove(s, SetPc(s, n, Finished(ok)));
  }

  lemma FinishQuiet(j: Job, s: State, n: NodeId, ok: bool)
    requires Shape(j, s) && n in s.pc && LocalOk(j, s, n)
    requires s.pc[n] == if ok then Decrementing(|j.g.down[n]|) else Cancelling(|j.g.down[n]|, [])
    ensures Quiet(j, s, SetPc(s, n, Finished(ok)), n)
  {
    hide Held, HeldUnrecorded, Shape, OwnSuccess;
    InTables(j, s, n);
    ShapeKept(j, s, SetPc(s, n, Finished(ok)), n);
    FinishHeld(s, n, ok, |j.g.down[n]|);
  }

  lemma FinishStep(j: Job, s: State, n: NodeId, ok: bool)
    requires Inv(j, s) && n in s.pc
    requires s.pc[n] == if ok then Decrementing(|j.g.down[n]|) else Cancelling(|j.g.down[n]|, [])
    ensures Inv(j, SetPc(s, n, Finished(ok)))
  {
    hide LocalInv, Quiet, LocalOk;
    LocalAt(j, s, n);
    FinishQuiet(j, s, n, ok);
    QuietMove(j, s, SetPc(s, n, Finished(ok)), n);
  }

  lemma RecordMoves(j: Job, s: State, n: NodeId, ok: bool)
    requires Shape(j, s) && n in s.pc && LocalOk(j, s, n) && s.pc[n] == Recording(ok)
    ensures Moves(j, s, RecordOutcome(s, n, ok), n)
  {
    hide Shape, OwnSuccess;
    InTables(j, s, n);
    ShapeKept(j, s, RecordOutcome(s, n, ok), n);
  }

  lemma RecordLatch(j: Job, s: State, s': State, n: NodeId, ok: bool)
    requires Shape(j, s) && LatchInv(j, s) && HoldInv(s) && HoldInv(s') && Moves(j, s, s', n) && LocalOk(j, s, n)
    requires s.pc[n] == Recording(ok) && s' == RecordOutcome(s, n, ok)
    ensures Shape(j, s') && LatchInv(j, s')
  {
    MovesShape(j, s, s', n);
    StageFrame(j, s, s', n);
    NotHeld(s, n);
    NotHeld(s', n);
    StageAt(s, n);
    StageAt(s', n);
    hide LatchInv, Moves, HoldInv, Held, HeldUnrecorded, Uncounted, Unrecorded;
    RecordOne(j, s, s', n);
  }

  lemma StageAt(s: State, n: NodeId)
    requires n in s.pc && n in s.nodeState && !Held(s, n) && !HeldUnrecorded(s, n)
    ensures Uncounted(s, n) <==>
      s.nodeState[n].Pending? || s.nodeState[n].Running? || s.pc[n].Recording? || s.pc[n].Counting?
    ensures Unrecorded(s, n) <==> s.nodeState[n].Pending? || s.nodeState[n].Running? || s.pc[n].Recording?
  {
  }

  lemma RecordStep(j: Job, s: State, n: NodeId, ok: bool)
    requires Inv(j, s) && n in s.pc && s.pc[n] == Recording(ok)
    ensures Inv(j, RecordOutcome(s, n, ok))
  {
    hide LocalInv, Moves, LocalOk, HoldInv, LatchInv;
    LocalAt(j, s, n);
    RecordMoves(j, s, n, ok);
    assert Shape(j, RecordOutcome(s, n, ok)) by { MovesShape(j, s, RecordOutcome(s, n, ok), n); }
    MoveFrames(j, s, RecordOutcome(s, n, ok), n);
    RecordLatch(j, s, RecordOutcome(s, n, ok), n, ok);
  }

  lemma CountOwnLoop(j: Job, s: State, n: NodeId, ok: bool, v: NodeId)
    requires Shape(j, s) && n in s.pc && s.pc[n] == Counting(ok) && Shape(j, CountOutcome(s, n, ok))
    requires v in j.g.down[n] && InOwnLoop(j, s, n, v)
    ensures InOwnLoop(j, CountOutcome(s, n, ok), n, v)
  {
    var k :| 0 <= k < |j.g.down[n]| && j.g.down[n][k] == v;
    assert Ahead(j.g.down[n], 0, v);
  }

  lemma CountMoves(j: Job, s: State, n: NodeId, ok: bool)
    requires Shape(j, s) && n in s.pc && LocalOk(j, s, n) && s.pc[n] == Counting(ok)
    ensures Moves(j, s, CountOutcome(s, n, ok), n)
  {
    forall v | v in j.g.down[n] && InOwnLoop(j, s, n, v) ensures InOwnLoop(j, CountOutcome(s, n, ok), n, v) {
      CountOwnLoop(j, s, n, ok, v);
    }
    hide InOwnLoop;
  }

  lemma CountLatch(j: Job, s: State, s': State, n: NodeId, ok: bool)
    requires Shape(j, s) && LatchInv(j, s) && HoldInv(s) && HoldInv(s') && Moves(j, s, s', n) && LocalOk(j, s, n)
    requires s.pc[n] == Counting(ok) && s' == CountOutcome(s, n, ok)
    ensures Shape(j, s') && LatchInv(j, s')
  {
    MovesShape(j, s, s', n);
    StageFrame(j, s, s', n);
    NotHeld(s, n);
    NotHeld(s', n);
    StageAt(s, n);
    StageAt(s', n);
    hide LatchInv, Moves, HoldInv, Held, HeldUnrecorded, Uncounted, Unrecorded;
    CountDown(j, s, s', n);
  }

  lemma CountStep(j: Job, s: State, n: NodeId, ok: bool)
    requires Inv(j, s) && n in s.pc && s.pc[n] == Counting(ok)
    ensures Inv(j, CountOutcome(s, n, ok))
  {
    hide LocalInv, Moves, LocalOk, HoldInv, LatchInv;
    LocalAt(j, s, n);
    CountMoves(j, s, n, ok);
    assert Shape(j, CountOutcome(s, n, ok)) by { MovesShape(j, s, CountOutcome(s, n, ok), n); }
    MoveFrames(j, s, CountOutcome(s, n, ok), n);
    CountLatch(j, s, CountOutcome(s, n, ok), n, ok);
  }
}
