/** What the ring buffer promises, over every interleaving. */
module RingTheorems {
  import opened RingProtocol
  import opened RingInvariant

  // ------------------------------------------------------------ runs

  ghost predicate Next<T(!new)>(cap: nat, s: State<T>, s': State<T>) {
    Sized(cap, s) && exists m :: Enabled(s, m) && s' == Apply(cap, s, m)
  }

  /** A run from the empty buffer with any set of producers. */
  ghost predicate IsRun<T(!new)>(cap: nat, ids: set<nat>, blank: T, t: seq<State<T>>) {
    && cap > 0 && |t| > 0 && t[0] == Init(cap, ids, blank)
    && (forall i, k {:trigger t[i], t[k]} :: 0 <= i && k == i + 1 && k < |t| ==> Next(cap, t[i], t[k]))
  }

  lemma InitInv<T>(cap: nat, ids: set<nat>, blank: T)
    requires cap >= 2
    ensures Inv(cap, Init(cap, ids, blank))
  {
    var s := Init(cap, ids, blank);
    forall t: nat | Released(s) <= t < Released(s) + cap ensures SlotOk(cap, s, t) {
      assert Slot(cap, t) == t;
    }
    forall p | p in s.producers ensures ProducerOk(cap, s, p) {
    }
  }

  lemma {:induction false} RunInv<T(!new)>(cap: nat, ids: set<nat>, blank: T, t: seq<State<T>>)
    requires IsRun(cap, ids, blank, t) && cap >= 2
    ensures Inv(cap, t[|t| - 1])
  {
    hide Inv, Init;
    if |t| == 1 {
      InitInv(cap, ids, blank);
    } else {
      RunInv(cap, ids, blank, t[..|t| - 1]);
      NextInv(cap, t[|t| - 2], t[|t| - 1]);
    }
  }

  lemma NextInv<T(!new)>(cap: nat, s: State<T>, s': State<T>)
    requires Inv(cap, s) && Next(cap, s, s')
    ensures Inv(cap, s')
  {
    hide Inv;
    var m :| Enabled(s, m) && s' == Apply(cap, s, m);
    MoveKeepsInv(cap, s, m);
  }

  ghost predicate Reachable<T(!new)>(cap: nat, s: State<T>) {
    exists ids, blank, t :: IsRun(cap, ids, blank, t) && s == t[|t| - 1]
  }

  lemma ReachableInv<T(!new)>(cap: nat, s: State<T>)
    requires Reachable(cap, s) && cap >= 2
    ensures Inv(cap, s)
  {
    hide Inv;
    var ids, blank, t :| IsRun(cap, ids, blank, t) && s == t[|t| - 1];
    RunInv(cap, ids, blank, t);
  }

  // ------------------------------------------------------------ safety

  function Values<T>(log: seq<(nat, T)>): (r: seq<T>)
    ensures |r| == |log| && forall k :: 0 <= k < |r| ==> r[k] == log[k].1
  {
    seq(|log|, k requires 0 <= k < |log| => log[k].1)
  }

  /** The k-th pop has returned what was pushed under ticket k: nothing lost, duplicated,
      reordered or torn. */
  ghost predicate InTicketOrder<T>(s: State<T>) {
    s.popped <= Values(s.log)
  }

  /** Some other party is at work on the slot data of position `pos`. */
  ghost predicate Touches<T>(cap: nat, s: State<T>, p: nat, slot: nat)
    requires cap > 0
  {
    p in s.producers && s.producers[p].AtWrite? && Slot(cap, s.producers[p].pos) == slot
  }

  /** No two parties are ever about to access one slot's data. */
  ghost predicate DataRaceFree<T>(cap: nat, s: State<T>)
    requires cap > 0
  {
    && (forall p, q, slot :: p != q && Touches(cap, s, p, slot) ==> !Touches(cap, s, q, slot))
    && (s.consumer.AtRead? ==> forall p :: !Touches(cap, s, p, Slot(cap, s.consumer.pos)))
  }

  ghost predicate Safe<T(!new)>(cap: nat, s: State<T>)
    requires cap > 0
  {
    InTicketOrder(s) && DataRaceFree(cap, s)
  }

  lemma RaceFree<T>(cap: nat, s: State<T>)
    requires Inv(cap, s)
    ensures DataRaceFree(cap, s)
  {
    hide Slot;
    forall p, q | p != q && p in s.producers && q in s.producers && s.producers[p].AtWrite? && s.producers[q].AtWrite?
      ensures Slot(cap, s.producers[p].pos) != Slot(cap, s.producers[q].pos)
    {
      assert ProducerOk(cap, s, p) && ProducerOk(cap, s, q);
      WindowSlots(cap, Released(s), s.producers[p].pos, s.producers[q].pos);
    }
    forall p | p in s.producers && s.producers[p].AtWrite? && s.consumer.AtRead?
      ensures Slot(cap, s.producers[p].pos) != Slot(cap, s.consumer.pos)
    {
      assert ProducerOk(cap, s, p);
      WindowSlots(cap, Released(s), s.producers[p].pos, s.consumer.pos);
    }
  }

  /** Safety for every capacity from 2 on. */
  lemma SafeFromTwo<T(!new)>(cap: nat, s: State<T>)
    requires Reachable(cap, s) && cap >= 2
    ensures Safe(cap, s)
    ensures Released(s) <= s.writePos <= Released(s) + cap
  {
    ReachableInv(cap, s);
    RaceFree(cap, s);
  }

  // ------------------------------------------------------------ capacity 1

  lemma Extend<T(!new)>(cap: nat, s: State<T>, m: Move<T>, s': State<T>)
    requires Reachable(cap, s) && Sized(cap, s) && Enabled(s, m) && s' == Apply(cap, s, m)
    ensures Reachable(cap, s')
  {
    var ids, blank, t :| IsRun(cap, ids, blank, t) && s == t[|t| - 1];
    hide Init, Apply, Enabled;
    assert Next(cap, s, s');
    assert IsRun(cap, ids, blank, t + [s']);
  }

  function OneSlot(number: int, datum: int, taken: nat, pc: ProducerPc<int>, log: seq<(nat, int)>): State<int> {
    State([number], [datum], taken, 0, map[0 := pc], Waiting, log, [])
  }

  lemma OneSlotInit() returns (s: State<int>)
    ensures s == OneSlot(0, 0, 0, Resting, []) && Reachable(1, s)
  {
    s := OneSlot(0, 0, 0, Resting, []);
    assert s == Init(1, {0}, 0);
    assert IsRun(1, {0}, 0, [s]);
  }

  lemma OneSlotStart() returns (s: State<int>)
    ensures s == OneSlot(1, 10, 1, Resting, [(0, 10)]) && Reachable(1, s)
  {
    hide Reachable;
    var s0 := OneSlotInit();
    var s1 := OneSlot(0, 0, 0, AtLoad(10), []);
    Extend(1, s0, Begin(0, 10), s1);
    var s2 := OneSlot(0, 0, 0, AtSeq(10, 0), []);
    Extend(1, s1, Load(0), s2);
    var s3 := OneSlot(0, 0, 0, AtCas(10, 0), []);
    Extend(1, s2, LoadSeq(0), s3);
    var s4 := OneSlot(0, 0, 1, AtWrite(10, 0), [(0, 10)]);
    Extend(1, s3, Cas(0, false), s4);
    var s5 := OneSlot(0, 10, 1, AtPublish(10, 0), [(0, 10)]);
    Extend(1, s4, Write(0), s5);
    s := OneSlot(1, 10, 1, Resting, [(0, 10)]);
    Extend(1, s5, Publish(0), s);
  }

  lemma OneSlotOverwrites() returns (s: State<int>)
    ensures s == OneSlot(1, 20, 2, AtPublish(20, 1), [(0, 10), (0, 20)]) && Reachable(1, s)
  {
    hide Reachable;
    var s6 := OneSlotStart();
    var s7 := OneSlot(1, 10, 1, AtLoad(20), [(0, 10)]);
    Extend(1, s6, Begin(0, 20), s7);
    var s8 := OneSlot(1, 10, 1, AtSeq(20, 1), [(0, 10)]);
    Extend(1, s7, Load(0), s8);
    var s9 := OneSlot(1, 10, 1, AtCas(20, 1), [(0, 10)]);
    Extend(1, s8, LoadSeq(0), s9);
    var s10 := OneSlot(1, 10, 2, AtWrite(20, 1), [(0, 10), (0, 20)]);
    Extend(1, s9, Cas(0, false), s10);
    s := OneSlot(1, 20, 2, AtPublish(20, 1), [(0, 10), (0, 20)]);
    Extend(1, s10, Write(0), s);
  }

  /** With one slot the number that means "published" for ticket 0 means "free" for
      ticket 1: a second push overwrites the first before it is popped. */
  lemma OneSlotLosesAnItem() returns (s: State<int>)
    ensures Reachable(1, s) && !InTicketOrder(s)
  {
    hide Reachable;
    var s11 := OneSlotOverwrites();
    var s12 := s11.(consumer := AtPopSeq(0));
    Extend(1, s11, PopBegin, s12);
    var s13 := s11.(consumer := AtRead(0));
    Extend(1, s12, PopSeq, s13);
    var s14 := s11.(consumer := AtRelease(0, 20));
    Extend(1, s13, PopRead, s14);
    var s15 := s11.(consumer := AtAdvance(0, 20));
    Extend(1, s14, PopRelease, s15);
    s := s15.(readPos := 1, popped := [20], consumer := Waiting);
    Extend(1, s15, PopAdvance, s);
    assert s.popped[0] == 20 && Values(s.log)[0] == 10;
  }

  /** The buffer can be used with a capacity: it has slots to index, and every reachable state
      is safe. */
  ghost predicate Usable(cap: nat) {
    cap > 0 && forall s: State<int> :: Reachable(cap, s) ==> Safe(cap, s)
  }

  /** With capacity 0 the mask wraps around to all ones in a word of `w` bits, so every
      position is its own index, and none of the 0 slots has it. */
  lemma ZeroCapacityIndex(w: nat, pos: nat)
    requires pos < Pow2(w)
    ensures BitAnd(pos, Pow2(w) - 1) == pos >= 0
  {
    MaskIsSlot(w, pos);
    RemainderIs(pos, Pow2(w), 0, pos);
  }

  /** The static assertion on the capacity admits 0 and 1; the protocol can be used exactly
      with the capacities from 2 on. */
  lemma SafeIffTwoSlots(cap: nat)
    ensures Usable(cap) <==> cap >= 2
  {
    if cap >= 2 {
      forall s: State<int> | Reachable(cap, s) ensures Safe(cap, s) {
        SafeFromTwo(cap, s);
      }
    } else if cap == 1 {
      var s := OneSlotLosesAnItem();
      assert Reachable(cap, s) && !Safe(cap, s);
    }
  }

  // ------------------------------------------------------------ exact answers

  /** `push` gives up exactly when the position it has loaded is `cap` past the released
      tickets, and then all `cap` tickets of the window are taken; it reloads only if another
      producer has advanced the write position since its load. */
  lemma PushAnswers<T(!new)>(cap: nat, s: State<T>, p: nat)
    requires Reachable(cap, s) && cap >= 2 && Sized(cap, s) && Enabled(s, LoadSeq(p))
    ensures var after := Apply(cap, s, LoadSeq(p)).producers[p];
            && (after.Resting? <==> s.producers[p].pos == Released(s) + cap)
            && (after.Resting? ==> s.writePos == Released(s) + cap)
            && (after.AtLoad? ==> s.producers[p].pos < s.writePos)
            && (s.producers[p].pos == s.writePos ==> (after.AtCas? <==> s.writePos < Released(s) + cap))
  {
    ReachableInv(cap, s);
    assert ProducerOk(cap, s, p);
    AtMostOneLapBehind(cap, s, s.producers[p].pos);
  }

  /** The number in the slot of a position at most one lap ahead of the window. */
  lemma {:induction false} AtMostOneLapBehind<T>(cap: nat, s: State<T>, pos: nat)
    requires Inv(cap, s) && pos <= s.writePos
    ensures pos == Released(s) + cap ==> s.seqs[Slot(cap, pos)] < pos
    ensures Released(s) <= pos < Released(s) + cap ==>
      s.seqs[Slot(cap, pos)] == pos || s.seqs[Slot(cap, pos)] == pos + 1
    ensures Released(s) <= pos == s.writePos < Released(s) + cap ==> s.seqs[Slot(cap, pos)] == pos
    ensures pos < Released(s) ==> s.seqs[Slot(cap, pos)] > pos
  {
    hide Slot;
    if pos == Released(s) + cap {
      SlotNextLap(cap, Released(s));
      assert SlotOk(cap, s, Released(s));
    } else if pos >= Released(s) {
      assert SlotOk(cap, s, pos);
    } else {
      StaleSlot(cap, s, pos, Released(s) - pos);
    }
  }

  /** A position behind the window shares its slot with a later ticket of the window. */
  lemma {:induction false} StaleSlot<T>(cap: nat, s: State<T>, pos: nat, behind: nat)
    requires Inv(cap, s) && pos < Released(s) + cap
    requires behind == if pos < Released(s) then Released(s) - pos else 0
    ensures s.seqs[Slot(cap, pos)] >= pos
    ensures pos < Released(s) ==> s.seqs[Slot(cap, pos)] > pos
    decreases behind
  {
    hide Slot;
    if pos < Released(s) {
      SlotNextLap(cap, pos);
      StaleSlot(cap, s, pos + cap, if pos + cap < Released(s) then Released(s) - (pos + cap) else 0);
    } else {
      assert SlotOk(cap, s, pos);
    }
  }

  /** A failed CAS means that the position was overtaken, or failed spuriously; the loser goes
      on with the current position. */
  lemma CasFailure<T(!new)>(cap: nat, s: State<T>, p: nat, spurious: bool)
    requires Reachable(cap, s) && cap >= 2 && Sized(cap, s) && Enabled(s, Cas(p, spurious))
    ensures var after := Apply(cap, s, Cas(p, spurious)).producers[p];
      && after.item == s.producers[p].item
      && (after.AtWrite? <==> !spurious && s.producers[p].pos == s.writePos)
      && (!after.AtWrite? ==> after.AtSeq? && after.pos == s.writePos && (spurious || s.producers[p].pos < s.writePos))
  {
    ReachableInv(cap, s);
    assert ProducerOk(cap, s, p);
  }

  /** `pop` answers nullopt exactly when the ticket at the read position is unpublished,
      and `empty`, though it tests `< 0` where `pop` tests `!= 0`, gives the same answer. */
  lemma PopAnswers<T(!new)>(cap: nat, s: State<T>)
    requires Reachable(cap, s) && cap >= 2 && !s.consumer.AtAdvance?
    ensures Sized(cap, s)
    ensures s.seqs[Slot(cap, s.readPos)] - (s.readPos + 1) != 0 <==> !Published(cap, s, s.readPos)
    ensures s.seqs[Slot(cap, s.readPos)] - (s.readPos + 1) < 0 <==> !Published(cap, s, s.readPos)
  {
    ReachableInv(cap, s);
    assert SlotOk(cap, s, s.readPos);
  }

  /** A value popped is the value under its ticket, at the moment `pop` returns it. */
  lemma PopReturnsItsTicket<T(!new)>(cap: nat, s: State<T>)
    requires Reachable(cap, s) && cap >= 2 && s.consumer.AtAdvance?
    ensures s.readPos < |s.log| && s.consumer.item == s.log[s.readPos].1 && |s.popped| == s.readPos
  {
    ReachableInv(cap, s);
  }

  /** No loss: with every producer at rest, everything pushed and not yet popped is in the
      buffer, published and ready in ticket order. */
  lemma NothingLostAtRest<T(!new)>(cap: nat, s: State<T>, k: nat)
    requires Reachable(cap, s) && cap >= 2 && (forall p :: p in s.producers ==> s.producers[p].Resting?)
    requires Released(s) <= k < s.writePos
    ensures Sized(cap, s) && k < |s.log| && Published(cap, s, k) && s.data[Slot(cap, k)] == s.log[k].1
  {
    ReachableInv(cap, s);
    assert SlotOk(cap, s, k);
  }

  // ------------------------------------------------------------ per-producer order

  /** What producer `p` has pushed, in the order of its own calls. */
  function PushedBy<T>(log: seq<(nat, T)>, p: nat): seq<T> {
    if log == [] then []
    else PushedBy(log[..|log| - 1], p) + (if log[|log| - 1].0 == p then [log[|log| - 1].1] else [])
  }

  /** A push of `p` that takes a ticket extends `p`'s own sequence, and nobody else's;
      no other move changes any of them. */
  lemma TicketsFollowCalls<T(!new)>(cap: nat, s: State<T>, m: Move<T>, p: nat)
    requires Sized(cap, s) && Enabled(s, m)
    ensures var s' := Apply(cap, s, m);
            PushedBy(s'.log, p) == PushedBy(s.log, p) +
              if m.Cas? && m.p == p && s.producers[p].pos == s.writePos && !m.spurious
              then [s.producers[p].item] else []
  {
    var s' := Apply(cap, s, m);
    if s'.log != s.log {
      assert s'.log[..|s'.log| - 1] == s.log;
    }
  }

  lemma {:induction false} PushedByPrefix<T>(log: seq<(nat, T)>, k: nat, p: nat)
    requires k <= |log|
    ensures PushedBy(log[..k], p) <= PushedBy(log, p)
  {
    if k < |log| {
      PushedByPrefix(log[..|log| - 1], k, p);
      assert log[..|log| - 1][..k] == log[..k];
    } else {
      assert log[..k] == log;
    }
  }

  /** The items of one producer leave the buffer in the order it pushed them. */
  lemma PerProducerOrder<T(!new)>(cap: nat, s: State<T>, p: nat)
    requires Reachable(cap, s) && cap >= 2
    ensures s.readPos <= |s.log|
    ensures s.popped == Values(s.log[..s.readPos])
    ensures PushedBy(s.log[..s.readPos], p) <= PushedBy(s.log, p)
  {
    ReachableInv(cap, s);
    PushedByPrefix(s.log, s.readPos, p);
  }
}
