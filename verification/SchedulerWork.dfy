/** The total work on downstream entries.  Every decrement and every push of a node on a
    cancel stack takes up one downstream entry, and no entry is taken up twice. */
module SchedulerWork {
  import opened DependencyGraph
  import opened NodeExecution
  import opened SchedulerModel
  import opened SchedulerInvariant
  import opened SchedulerOutcomeSteps
  import opened SchedulerTermination
  import opened SchedulerForward

  /** The decrements and pushes of one step. */
  ghost function WorkOf(j: Job, s: State, a: Actor): nat {
    if a.Main? || a.n !in s.pc || a.n !in j.g.down then 0
    else match s.pc[a.n]
      case Decrementing(i) => if i < |j.g.down[a.n]| then 1 else 0
      case Cancelling(i, stack) => if stack == [] && i < |j.g.down[a.n]| then 1 else 0
      case CountingCancel(_, _, v) => if v in j.g.down then |j.g.down[v]| else 0
      case _ => 0
  }

  /** The downstream entries of `u` dealt with so far: one by one by its own loop, or all at
      once by the canceller that cancelled it. */
  ghost function Handled(j: Job, s: State, u: NodeId): nat
    requires Shape(j, s) && u in s.pc
  {
    if s.nodeState[u].Cancelled? then (if Held(s, u) then 0 else |j.g.down[u]|)
    else Entered(j, u, s.pc[u])
  }

  /** Whose entries a step of `a` deals with. */
  ghost function ListOwner(s: State, n: NodeId): NodeId
    requires n in s.pc
  {
    if s.pc[n].CountingCancel? then s.pc[n].v else n
  }

  lemma HandledBound(j: Job, s: State, u: NodeId)
    requires Shape(j, s) && u in s.pc
    ensures Handled(j, s, u) <= |j.g.down[u]|
  {
    assert PcInRange(j, u, s.pc[u]);
  }

  // ------------------------------------------------------------ one step

  /** A step that leaves the holds and the cancelled nodes alone and moves one worker. */
  lemma OwnMove(j: Job, s: State, s': State, n: NodeId, u: NodeId)
    requires Shape(j, s) && Shape(j, s') && n in s.pc && u in s.pc
    requires forall w :: Holds(s', w, u) <==> Holds(s, w, u)
    requires s'.nodeState[u].Cancelled? <==> s.nodeState[u].Cancelled?
    requires !s.nodeState[n].Cancelled?
    requires u != n ==> Entered(j, u, s'.pc[u]) == Entered(j, u, s.pc[u])
    ensures u != n ==> Handled(j, s', u) == Handled(j, s, u)
    ensures u == n ==> Handled(j, s', u) == Entered(j, n, s'.pc[n]) && Handled(j, s, u) == Entered(j, n, s.pc[n])
  {
    assert Held(s', u) <==> Held(s, u);
  }

  lemma StartMove(j: Job, s: State, n: NodeId, s': State, u: NodeId)
    requires Shape(j, s) && Shape(j, s') && WorkerEnabled(s, n) && s' == WorkerStep(j, s, n) && u in s.pc
    requires LocalOk(j, s, n) && (Held(s, u) ==> s.nodeState[u].Cancelled?)
    requires s.pc[n].Queued? || s.pc[n].Attempting? || s.pc[n].Storing? || s.pc[n].Recording? || s.pc[n].Counting?
    ensures Handled(j, s', u) == Handled(j, s, u)
  {
    hide OwnSuccess, AttemptResult, MaxAttempts, Decrement, Claim, Enqueue, Cancel, RecordCancel, CountCancel, Shape,
      Handled;
    OwnMove(j, s, s', n, u);
  }

  ghost predicate HoldKind(pc: Pc) {
    pc.RecordingCancel? || pc.CountingCancel?
  }

  /** Only the position of `n` changes, and it holds nothing before or after. */
  lemma PlainMove(j: Job, s: State, s': State, n: NodeId, u: NodeId)
    requires Shape(j, s) && Shape(j, s') && n in s.pc && u in s.pc
    requires s'.pc == s.pc[n := s'.pc[n]] && !HoldKind(s.pc[n]) && !HoldKind(s'.pc[n])
    requires s'.nodeState[u].Cancelled? <==> s.nodeState[u].Cancelled?
    requires !s.nodeState[n].Cancelled?
    ensures u != n ==> Handled(j, s', u) == Handled(j, s, u)
    ensures u == n ==> Handled(j, s', u) == Entered(j, n, s'.pc[n]) && Handled(j, s, u) == Entered(j, n, s.pc[n])
  {
    hide Handled, Entered, Shape;
    OwnMove(j, s, s', n, u);
  }

  lemma EnqueueMove(j: Job, s: State, n: NodeId, s': State, u: NodeId)
    requires Shape(j, s) && Shape(j, s') && WorkerEnabled(s, n) && s' == WorkerStep(j, s, n) && u in s.pc
    requires s.nodeState[n].Success? && s.pc[n].Enqueueing? && s.pc[j.g.down[n][s.pc[n].i]].Absent?
    ensures Handled(j, s', u) == Handled(j, s, u)
  {
    hide Handled, Decrement, Claim, Cancel, Shape;
    OwnMove(j, s, s', n, u);
  }

  lemma SuccessMove(j: Job, s: State, n: NodeId, s': State, u: NodeId)
    requires Shape(j, s) && Shape(j, s') && WorkerEnabled(s, n) && s' == WorkerStep(j, s, n) && u in s.pc
    requires LocalOk(j, s, n)
    requires s.pc[n].Decrementing? || s.pc[n].Claiming? || s.pc[n].Enqueueing?
    requires s.pc[n].Enqueueing? ==> s.pc[j.g.down[n][s.pc[n].i]].Absent?
    ensures Handled(j, s', u) == Handled(j, s, u) + if u == n then WorkOf(j, s, Worker(n)) else 0
  {
    hide OwnSuccess, Handled, Shape;
    if s.pc[n].Enqueueing? {
      EnqueueMove(j, s, n, s', u);
    } else {
      RangeAt(j, s, n);
      PlainMove(j, s, s', n, u);
    }
  }

  lemma RangeAt(j: Job, s: State, n: NodeId)
    requires Shape(j, s) && n in s.pc
    ensures n in j.g.down && PcInRange(j, n, s.pc[n])
  {
  }

  lemma PopMove(j: Job, s: State, n: NodeId, s': State, u: NodeId)
    requires Shape(j, s) && Shape(j, s') && n in s.pc && u in s.pc && s.pc[n].Cancelling?
    requires n in j.g.down && s.pc[n].i <= |j.g.down[n]|
    requires var stack := s.pc[n].stack; stack != [] ==> stack[|stack| - 1] in s.nodeState
    requires s' == Cancel(j, s, n, s.pc[n].i, s.pc[n].stack)
    requires LocalOk(j, s, n) && LocalOk(j, s, u)
    ensures Handled(j, s', u) == Handled(j, s, u) + if u == n then WorkOf(j, s, Worker(n)) else 0
  {
    hide OwnSuccess, AttemptResult, MaxAttempts, Shape;
    var Cancelling(i, stack) := s.pc[n];
    if stack != [] && s.nodeState[stack[|stack| - 1]].Pending? && stack[|stack| - 1] == u {
      assert Holds(s', n, u);
      assert s.pc[u].Absent?;
    } else {
      hide Handled;
      OwnMove(j, s, s', n, u);
    }
  }

  /** The step that pushes the whole list of the node it holds. */
  lemma PushMove(j: Job, s: State, n: NodeId, s': State, u: NodeId)
    requires Shape(j, s) && Shape(j, s') && WorkerEnabled(s, n) && s' == WorkerStep(j, s, n) && u in s.pc
    requires HoldInv(s) && s.pc[n].CountingCancel? && s.pc[n].v == u
    ensures Handled(j, s, u) == 0 && Handled(j, s', u) == |j.g.down[u]|
  {
    hide PcInRange;
    assert Holds(s, n, u);
    forall w ensures !Holds(s', w, u) {
      assert w in s.pc && w != n && Holds(s', w, u) ==> Holds(s, w, u);
    }
  }

  lemma CountMove(j: Job, s: State, n: NodeId, s': State, u: NodeId)
    requires Shape(j, s) && Shape(j, s') && WorkerEnabled(s, n) && s' == WorkerStep(j, s, n) && u in s.pc
    requires LocalOk(j, s, n) && HoldInv(s) && (s.pc[n].RecordingCancel? || s.pc[n].CountingCancel?)
    ensures Handled(j, s', u) == Handled(j, s, u) + if u == ListOwner(s, n) then WorkOf(j, s, Worker(n)) else 0
  {
    hide PcInRange, OwnSuccess, Handled, StartTask, Attempt1, StoreOutcome, RecordOutcome, CountOutcome, Decrement,
      Claim, Enqueue, Cancel;
    if s.pc[n].CountingCancel? && s.pc[n].v == u {
      PushMove(j, s, n, s', u);
    } else {
      OwnMove(j, s, s', n, u);
    }
  }

  lemma MainKeepsHolds(j: Job, s: State, u: NodeId)
    requires Shape(j, s) && MainEnabled(s)
    requires s.main.EnqueueingRoot? ==> j.g.nodes[s.main.i] in s.pc && s.pc[j.g.nodes[s.main.i]].Absent?
    ensures Held(MainStep(j, s), u) <==> Held(s, u)
  {
    assert forall w :: Holds(MainStep(j, s), w, u) <==> Holds(s, w, u);
  }

  lemma MainMove(j: Job, s: State, s': State, u: NodeId)
    requires Shape(j, s) && Shape(j, s') && ScanInv(j, s) && MainEnabled(s) && !s.main.Resetting?
      && s' == MainStep(j, s) && u in s.pc
    ensures Handled(j, s', u) == Handled(j, s, u)
  {
    RootIsAbsent(j, s);
    MainKeepsHolds(j, s, u);
    MainKeepsNode(j, s, u);
    hide ScanInv, Shape, Held, MainStep, Entered;
  }

  lemma MainKeepsNode(j: Job, s: State, u: NodeId)
    requires Shape(j, s) && MainEnabled(s) && !s.main.Resetting? && u in s.pc
    requires s.main.EnqueueingRoot? ==> j.g.nodes[s.main.i] in s.pc && s.pc[j.g.nodes[s.main.i]].Absent?
    ensures var s' := MainStep(j, s);
      && u in s'.nodeState && u in s'.pc && (s'.nodeState[u].Cancelled? <==> s.nodeState[u].Cancelled?)
      && Entered(j, u, s'.pc[u]) == Entered(j, u, s.pc[u])
  {
  }

  /** What the scan takes up next is Pending or about to be enqueued, so not cancelled. */
  lemma RootIsAbsent(j: Job, s: State)
    requires Shape(j, s) && ScanInv(j, s)
    ensures s.main.EnqueueingRoot? ==>
      s.main.i < |j.g.nodes| && j.g.nodes[s.main.i] in s.pc && s.pc[j.g.nodes[s.main.i]].Absent?
  {
  }

  ghost function EntryCounts(j: Job): map<NodeId, nat> {
    map u | u in j.g.down :: |j.g.down[u]|
  }

  lemma StepMove(j: Job, s: State, a: Actor, u: NodeId)
    requires Inv(j, s) && Enabled(s, a) && u in s.pc && Shape(j, Step(j, s, a))
    ensures Handled(j, Step(j, s, a), u)
         == Handled(j, s, u) + if a.Worker? && u == ListOwner(s, a.n) then WorkOf(j, s, a) else 0
  {
    hide CauseInv, DoomInv, CounterInv, ClaimInv, ReadyInv, RunningInv, ClosureInv, LatchInv, ValidJob, Handled,
      LocalOk, StartTask, Attempt1, StoreOutcome, RecordOutcome, CountOutcome, Decrement, Claim, Enqueue, Cancel,
      RecordCancel, CountCancel, MainStep, Shape;
    var s' := Step(j, s, a);
    match a {
      case Main => MainMove(j, s, s', u);
      case Worker(n) =>
        LocalAt(j, s, n);
        LocalAt(j, s, u);
        if s.pc[n].Queued? || s.pc[n].Attempting? || s.pc[n].Storing? || s.pc[n].Recording? || s.pc[n].Counting? {
          assert Held(s, u) ==> s.nodeState[u].Cancelled?;
          StartMove(j, s, n, s', u);
        } else if s.pc[n].Decrementing? || s.pc[n].Claiming? || s.pc[n].Enqueueing? {
          if s.pc[n].Enqueueing? {
            RangeAt(j, s, n);
            assert Enqueues(j, s, n, j.g.down[n][s.pc[n].i]);
          }
          SuccessMove(j, s, n, s', u);
        } else if s.pc[n].Cancelling? {
          StackInTable(j, s, n);
          PopMove(j, s, n, s', u);
        } else {
          CountMove(j, s, n, s', u);
        }
    }
  }

  lemma OwnerInTable(j: Job, s: State, n: NodeId)
    requires Shape(j, s) && n in s.pc
    ensures ListOwner(s, n) in s.pc
  {
    assert PcInRange(j, n, s.pc[n]);
  }

  /** What a step of `a` adds to the entries of `u` dealt with. */
  ghost function Gain(j: Job, s: State, a: Actor, u: NodeId): nat {
    if a.Worker? && a.n in s.pc && u == ListOwner(s, a.n) then WorkOf(j, s, a) else 0
  }

  lemma StepMoves(j: Job, s: State, a: Actor, s': State)
    requires Inv(j, s) && Shape(j, s) && Enabled(s, a) && s' == Step(j, s, a) && Shape(j, s')
    ensures forall u :: u in s.pc ==> (Handled(j, s', u) == Handled(j, s, u) + Gain(j, s, a, u))
  {
    hide Inv, Handled, Step, WorkOf, ListOwner;
    forall u | u in s.pc ensures Handled(j, s', u) == Handled(j, s, u) + Gain(j, s, a, u) {
      StepMove(j, s, a, u);
    }
  }

  lemma SumGain(q: seq<NodeId>, w: map<NodeId, nat>, w': map<NodeId, nat>, x: NodeId, d: nat)
    requires Distinct(q) && x in q && x in w && w'.Keys == w.Keys
    requires forall u :: u in w ==> w'[u] == w[u] + if u == x then d else 0
    ensures Sum(q, w') == Sum(q, w) + d
  {
    assert w' == w[x := w[x] + d];
    SumUpdate(q, w, x, w[x] + d);
  }

  // ------------------------------------------------------------ the entries of a step

  /** The downstream entries a step decrements or pushes, by list and position. */
  ghost function Taken(j: Job, s: State, a: Actor): set<(NodeId, int)> {
    if a.Main? || a.n !in s.pc || a.n !in j.g.down then {}
    else match s.pc[a.n]
      case Decrementing(i) => if i < |j.g.down[a.n]| then {(a.n, i)} else {}
      case Cancelling(i, stack) => if stack == [] && i < |j.g.down[a.n]| then {(a.n, i)} else {}
      case CountingCancel(_, _, v) => if v in j.g.down then Positions(v, |j.g.down[v]|) else {}
      case _ => {}
  }

  ghost function Positions(v: NodeId, n: nat): set<(NodeId, int)> {
    set k | 0 <= k < n :: (v, k)
  }

  lemma {:induction false} PositionsSize(v: NodeId, n: nat)
    ensures |Positions(v, n)| == n
  {
    if n > 0 {
      PositionsSize(v, n - 1);
      assert Positions(v, n) == Positions(v, n - 1) + {(v, n - 1)};
    }
  }

  /** The work of a step is the number of entries it takes. */
  lemma WorkCountsTaken(j: Job, s: State, a: Actor)
    ensures WorkOf(j, s, a) == |Taken(j, s, a)|
  {
    if a.Worker? && a.n in s.pc && s.pc[a.n].CountingCancel? && s.pc[a.n].v in j.g.down {
      PositionsSize(s.pc[a.n].v, |j.g.down[s.pc[a.n].v]|);
    }
  }

  /** Where in the list of its owner a step goes on. */
  lemma OwnerStands(j: Job, s: State, n: NodeId, u: NodeId, k: int)
    requires Shape(j, s) && n in s.pc && LocalOk(j, s, n) && HoldInv(s)
    ensures (u, k) in Taken(j, s, Worker(n)) <==>
      u == ListOwner(s, n) && u in s.pc && Handled(j, s, u) <= k < Handled(j, s, u) + WorkOf(j, s, Worker(n))
  {
    assert PcInRange(j, n, s.pc[n]);
    if s.pc[n].CountingCancel? {
      assert Holds(s, n, s.pc[n].v);
    }
  }

  /** The entries of each list are dealt with from the front, and a step takes exactly the
      entries by which the part dealt with grows: none of them was taken before. */
  lemma StepTakes(j: Job, s: State, a: Actor, s': State)
    requires Inv(j, s) && Enabled(s, a) && s' == Step(j, s, a) && Inv(j, s')
    ensures s'.pc.Keys == s.pc.Keys
    ensures forall u, k {:trigger (u, k) in Taken(j, s, a)} :: (u, k) in Taken(j, s, a) <==>
      u in s.pc && Handled(j, s, u) <= k < Handled(j, s', u)
    ensures forall u {:trigger Handled(j, s', u)} :: u in s.pc ==>
      Handled(j, s', u) == Handled(j, s, u) + Gain(j, s, a, u)
  {
    hide Inv, Shape, Handled, Step, Taken, WorkOf, LocalOk, HoldInv, ListOwner;
    InvShape(j, s);
    InvShape(j, s');
    SameTable(j, s, s');
    StepMoves(j, s, a, s');
    forall u, k ensures (u, k) in Taken(j, s, a) <==> u in s.pc && Handled(j, s, u) <= k < Handled(j, s', u) {
      match a {
        case Main => MainWorksNot(j, s);
        case Worker(n) =>
          HoldsOf(j, s, n);
          OwnerStands(j, s, n, u, k);
          assert u in s.pc ==> Handled(j, s', u) == Handled(j, s, u) + Gain(j, s, a, u);
      }
    }
  }

  lemma HoldsOf(j: Job, s: State, n: NodeId)
    requires Inv(j, s) && n in s.pc
    ensures Shape(j, s) && LocalOk(j, s, n) && HoldInv(s)
  {
    hide CauseInv, DoomInv, HoldInv, CounterInv, ClaimInv, EnqueueInv, ScanInv, ReadyInv, RunningInv, ClosureInv,
      LatchInv, ValidJob, LocalOk;
  }

  lemma MainWorksNot(j: Job, s: State)
    ensures Taken(j, s, Main) == {} && WorkOf(j, s, Main) == 0
    ensures forall u :: Gain(j, s, Main, u) == 0
  {
  }

  lemma SameTable(j: Job, s: State, s': State)
    requires Inv(j, s) && Inv(j, s')
    ensures s'.pc.Keys == s.pc.Keys && Distinct(j.g.nodes) && forall x :: x in s.pc ==> x in j.g.nodes
  {
  }

  ghost predicate Moves(j: Job, s: State, a: Actor, s': State) {
    Shape(j, s) && Enabled(s, a) && s' == Step(j, s, a)
  }

  /** The actors of `acts` act one after the other, through the states of `t`. */
  ghost predicate Schedule(j: Job, t: seq<State>, acts: seq<Actor>) {
    |t| == |acts| + 1 && forall i, k {:trigger t[k], acts[i]} :: 0 <= i < |acts| && k == i + 1 ==>
      Moves(j, t[i], acts[i], t[k])
  }

  /** All decrements and pushes of a schedule. */
  ghost function TotalWork(j: Job, t: seq<State>, acts: seq<Actor>): nat
    requires |t| >= |acts|
  {
    if acts == [] then 0
    else
      var n := |acts| - 1;
      TotalWork(j, t, acts[..n]) + WorkOf(j, t[n], acts[n])
  }

  lemma {:induction false} SumOrdered(q: seq<NodeId>, w: map<NodeId, nat>, w': map<NodeId, nat>)
    requires w.Keys == w'.Keys && forall x :: x in w ==> w[x] <= w'[x]
    ensures Sum(q, w) <= Sum(q, w')
  {
    if q != [] {
      SumOrdered(q[1..], w, w');
    }
  }

  lemma {:induction false} ScheduleInv(j: Job, t: seq<State>, acts: seq<Actor>, i: nat)
    requires Schedule(j, t, acts) && Inv(j, t[0]) && i <= |acts|
    ensures Inv(j, t[i]) && t[i].pc.Keys == t[0].pc.Keys
  {
    hide Inv, Step, Shape, Enabled;
    if i > 0 {
      ScheduleInv(j, t, acts, i - 1);
      assert Moves(j, t[i - 1], acts[i - 1], t[i]);
      StepLater(j, t[i - 1], acts[i - 1]);
      SameTable(j, t[i - 1], t[i]);
    }
  }

  /** The entries of `u` dealt with never become fewer. */
  lemma {:induction false} HandledGrows(j: Job, t: seq<State>, acts: seq<Actor>, i: nat, k: nat, u: NodeId)
    requires Schedule(j, t, acts) && Inv(j, t[0]) && i <= k <= |acts| && u in t[0].pc
    ensures Inv(j, t[i]) && Inv(j, t[k]) && Shape(j, t[i]) && Shape(j, t[k]) && u in t[i].pc && u in t[k].pc
    ensures Handled(j, t[i], u) <= Handled(j, t[k], u)
    decreases k
  {
    hide Inv, Step, Shape, Enabled, Handled, Taken, Gain;
    ScheduleInv(j, t, acts, i);
    ScheduleInv(j, t, acts, k);
    InvShape(j, t[i]);
    InvShape(j, t[k]);
    if i < k {
      HandledGrows(j, t, acts, i, k - 1, u);
      assert Moves(j, t[k - 1], acts[k - 1], t[k]);
      StepTakes(j, t[k - 1], acts[k - 1], t[k]);
    }
  }

  /** No downstream entry is decremented or pushed twice, whatever the schedule. */
  lemma EntriesTakenOnce(j: Job, t: seq<State>, acts: seq<Actor>, i: nat, k: nat)
    requires Schedule(j, t, acts) && Inv(j, t[0]) && i < k < |acts|
    ensures Taken(j, t[i], acts[i]) !! Taken(j, t[k], acts[k])
  {
    hide Inv, Step, Shape, Enabled, Handled, Taken, Gain;
    forall e | e in Taken(j, t[i], acts[i]) ensures e !in Taken(j, t[k], acts[k]) {
      var (u, p) := e;
      ScheduleInv(j, t, acts, i);
      ScheduleInv(j, t, acts, i + 1);
      ScheduleInv(j, t, acts, k);
      ScheduleInv(j, t, acts, k + 1);
      assert Moves(j, t[i], acts[i], t[i + 1]) && Moves(j, t[k], acts[k], t[k + 1]);
      StepTakes(j, t[i], acts[i], t[i + 1]);
      StepTakes(j, t[k], acts[k], t[k + 1]);
      assert (u, p) in Taken(j, t[i], acts[i]);
      HandledGrows(j, t, acts, i + 1, k, u);
    }
  }

  /** The decrements and pushes of a schedule that concern the list of `u`. */
  ghost function ListWork(j: Job, t: seq<State>, acts: seq<Actor>, u: NodeId): nat
    requires |t| >= |acts|
  {
    if acts == [] then 0
    else
      var n := |acts| - 1;
      ListWork(j, t, acts[..n], u) + Gain(j, t[n], acts[n], u)
  }

  lemma {:induction false} ListWorkIsHandled(j: Job, t: seq<State>, acts: seq<Actor>, n: nat, u: NodeId)
    requires Schedule(j, t, acts) && Inv(j, t[0]) && u in t[0].pc && n <= |acts|
    ensures Shape(j, t[0]) && Shape(j, t[n]) && u in t[n].pc
    ensures Handled(j, t[n], u) == Handled(j, t[0], u) + ListWork(j, t, acts[..n], u)
    decreases n
  {
    hide Inv, Step, Shape, Enabled, Handled, Gain, Taken;
    HandledGrows(j, t, acts, 0, n, u);
    if n > 0 {
      ListWorkIsHandled(j, t, acts, n - 1, u);
      assert acts[..n][..n - 1] == acts[..n - 1];
      HandledGrows(j, t, acts, n - 1, n, u);
      assert Moves(j, t[n - 1], acts[n - 1], t[n]);
      StepTakes(j, t[n - 1], acts[n - 1], t[n]);
    }
  }

  /** Each downstream list is traversed at most once in total, by its own loop and all
      cancellers together. */
  lemma ListBounded(j: Job, t: seq<State>, acts: seq<Actor>, u: NodeId)
    requires Schedule(j, t, acts) && Inv(j, t[0]) && u in j.g.down
    ensures ListWork(j, t, acts, u) <= |j.g.down[u]|
  {
    hide Inv, Handled, Schedule, ListWork;
    ScheduleSize(j, t, acts);
    InTable(j, t[0], u);
    ListWorkIsHandled(j, t, acts, |acts|, u);
    assert acts[..|acts|] == acts;
    HandledBound(j, t[|acts|], u);
  }

  lemma ScheduleSize(j: Job, t: seq<State>, acts: seq<Actor>)
    requires Schedule(j, t, acts)
    ensures |t| == |acts| + 1
  {
  }

  lemma InTable(j: Job, s: State, u: NodeId)
    requires Inv(j, s) && u in j.g.down
    ensures u in s.pc
  {
  }

  ghost function ListWorks(j: Job, t: seq<State>, acts: seq<Actor>): map<NodeId, nat>
    requires |t| >= |acts|
  {
    map u | u in j.g.down :: ListWork(j, t, acts, u)
  }

  lemma ListWorksGrow(j: Job, t: seq<State>, acts: seq<Actor>)
    requires |t| >= |acts| > 0
    ensures var n := |acts| - 1;
      forall u :: u in j.g.down ==>
        (ListWorks(j, t, acts)[u] == ListWorks(j, t, acts[..n])[u] + Gain(j, t[n], acts[n], u))
  {
    hide Gain;
  }

  lemma NoListWork(j: Job, t: seq<State>)
    ensures forall u :: u in ListWorks(j, t, []) ==> ListWorks(j, t, [])[u] == 0
  {
  }

  /** One more step adds its work to the sum over the lists. */
  lemma SumGrows(j: Job, t: seq<State>, acts: seq<Actor>)
    requires |t| >= |acts| > 0
    requires var n := |acts| - 1; Inv(j, t[n]) && Enabled(t[n], acts[n])
    ensures var n := |acts| - 1;
      Sum(j.g.nodes, ListWorks(j, t, acts)) == Sum(j.g.nodes, ListWorks(j, t, acts[..n])) + WorkOf(j, t[n], acts[n])
  {
    hide Inv, Shape, Enabled, WorkOf, ListOwner, ListWork, Distinct;
    var n := |acts| - 1;
    var s, a := t[n], acts[n];
    ListWorksGrow(j, t, acts);
    SameTable(j, s, s);
    InvShape(j, s);
    KeysOf(j, s);
    if a.Worker? {
      WorkerInTable(s, a.n);
      OwnerInTable(j, s, a.n);
      SumGain(j.g.nodes, ListWorks(j, t, acts[..n]), ListWorks(j, t, acts), ListOwner(s, a.n), WorkOf(j, s, a));
    } else {
      MainWorksNot(j, s);
      assert ListWorks(j, t, acts) == ListWorks(j, t, acts[..n]);
    }
  }

  /** The total is the sum over the lists. */
  lemma {:induction false} TotalIsSum(j: Job, t: seq<State>, acts: seq<Actor>, n: nat)
    requires Schedule(j, t, acts) && Inv(j, t[0]) && n <= |acts|
    ensures TotalWork(j, t, acts[..n]) == Sum(j.g.nodes, ListWorks(j, t, acts[..n]))
    decreases n
  {
    hide Inv, Step, Shape, Enabled, WorkOf, ListWorks;
    if n == 0 {
      NoListWork(j, t);
      SumOfNothing(j.g.nodes, ListWorks(j, t, []));
    } else {
      TotalIsSum(j, t, acts, n - 1);
      var now := acts[..n];
      assert now[..n - 1] == acts[..n - 1];
      ScheduleInv(j, t, acts, n - 1);
      assert Moves(j, t[n - 1], acts[n - 1], t[n]);
      SumGrows(j, t, now);
    }
  }

  lemma KeysOf(j: Job, s: State)
    requires Shape(j, s)
    ensures s.pc.Keys == j.g.down.Keys
  {
  }

  lemma WorkerInTable(s: State, n: NodeId)
    requires Enabled(s, Worker(n))
    ensures n in s.pc
  {
  }

  lemma {:induction false} SumOfNothing(q: seq<NodeId>, w: map<NodeId, nat>)
    requires forall x :: x in w ==> w[x] == 0
    ensures Sum(q, w) == 0
  {
    if q != [] {
      SumOfNothing(q[1..], w);
    }
  }

  /** Whatever the schedule, pushes and decrements together never exceed the number of
      downstream entries of the graph. */
  lemma WorkBounded(j: Job, t: seq<State>, acts: seq<Actor>)
    requires Schedule(j, t, acts) && Inv(j, t[0])
    ensures TotalWork(j, t, acts) <= Sum(j.g.nodes, EntryCounts(j))
  {
    hide Inv, ListWork;
    TotalIsSum(j, t, acts, |acts|);
    assert acts[..|acts|] == acts;
    forall u | u in j.g.down ensures ListWork(j, t, acts, u) <= |j.g.down[u]| {
      ListBounded(j, t, acts, u);
    }
    SumOrdered(j.g.nodes, ListWorks(j, t, acts), EntryCounts(j));
  }
}
