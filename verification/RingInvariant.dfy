/** Every move of every party keeps the ring's invariant. */
module RingInvariant {
  import opened RingProtocol

  /** Two different tickets of the window use different slots. */
  lemma WindowSlots(cap: nat, base: nat, a: nat, b: nat)
    requires cap > 0 && base <= a < base + cap && base <= b < base + cap && a != b
    ensures Slot(cap, a) != Slot(cap, b)
  {
    if Slot(cap, a) == Slot(cap, b) {
      if a < b { SlotInjective(cap, a, b); } else { SlotInjective(cap, b, a); }
    }
  }

  /** A slot whose sequence number equals the write position is free. */
  lemma FreeMeansRoom<T>(cap: nat, s: State<T>)
    requires Inv(cap, s) && s.seqs[Slot(cap, s.writePos)] == s.writePos
    ensures s.writePos < Released(s) + cap
  {
    assert SlotOk(cap, s, Released(s));
    SlotNextLap(cap, Released(s));
  }

  // ------------------------------------------------------------ moves that take no slot

  /** A producer that fills no slot before or after only needs its own condition. */
  lemma IdleMove<T>(cap: nat, s: State<T>, p: nat, pc: ProducerPc<T>)
    requires Inv(cap, s) && p in s.producers
    requires !s.producers[p].AtWrite? && !s.producers[p].AtPublish?
    requires ProducerOk(cap, At(s, p, pc), p)
    ensures Inv(cap, At(s, p, pc))
  {
    hide Slot;
    var s' := At(s, p, pc);
    forall t: nat | Released(s') <= t < Released(s') + cap ensures SlotOk(cap, s', t) {
      assert SlotOk(cap, s, t);
    }
    forall q | q in s'.producers ensures ProducerOk(cap, s', q) {
      assert ProducerOk(cap, s, q);
    }
  }

  lemma LoadSeqMove<T>(cap: nat, s: State<T>, p: nat)
    requires Inv(cap, s) && Enabled(s, LoadSeq(p))
    ensures Inv(cap, Apply(cap, s, LoadSeq(p)))
  {
    hide Slot;
    assert ProducerOk(cap, s, p);
    var pc := s.producers[p];
    if pc.pos == s.writePos && s.seqs[Slot(cap, pc.pos)] == pc.pos {
      FreeMeansRoom(cap, s);
    }
    IdleMove(cap, s, p, AfterSeq(pc.item, pc.pos, s.seqs[Slot(cap, pc.pos)]));
  }

  // ------------------------------------------------------------ taking a ticket

  lemma CasMove<T>(cap: nat, s: State<T>, p: nat)
    requires Inv(cap, s) && Enabled(s, Cas(p, false)) && s.producers[p].pos == s.writePos
    ensures Inv(cap, Apply(cap, s, Cas(p, false)))
  {
    hide Slot;
    var s' := Apply(cap, s, Cas(p, false));
    assert ProducerOk(cap, s, p);
    assert SlotOk(cap, s, s.writePos);
    forall t: nat | Released(s') <= t < Released(s') + cap ensures SlotOk(cap, s', t) {
      assert SlotOk(cap, s, t);
    }
    forall q | q in s'.producers ensures ProducerOk(cap, s', q) {
      assert ProducerOk(cap, s, q);
    }
  }

  // ------------------------------------------------------------ filling the slot

  lemma WriteMove<T>(cap: nat, s: State<T>, p: nat)
    requires Inv(cap, s) && Enabled(s, Write(p))
    ensures Inv(cap, Apply(cap, s, Write(p)))
  {
    hide Slot;
    var s' := Apply(cap, s, Write(p));
    var pos := s.producers[p].pos;
    assert ProducerOk(cap, s, p);
    forall t: nat | Released(s') <= t < Released(s') + cap ensures SlotOk(cap, s', t) {
      assert SlotOk(cap, s, t);
      if t != pos { WindowSlots(cap, Released(s), t, pos); }
    }
    forall q | q in s'.producers ensures ProducerOk(cap, s', q) {
      assert ProducerOk(cap, s, q);
      if q != p && s.producers[q].AtPublish? {
        WindowSlots(cap, Released(s), s.producers[q].pos, pos);
      }
    }
  }

  lemma PublishMove<T>(cap: nat, s: State<T>, p: nat)
    requires Inv(cap, s) && Enabled(s, Publish(p))
    ensures Inv(cap, Apply(cap, s, Publish(p)))
  {
    hide Slot;
    var s' := Apply(cap, s, Publish(p));
    var pos := s.producers[p].pos;
    assert ProducerOk(cap, s, p);
    forall t: nat | Released(s') <= t < Released(s') + cap ensures SlotOk(cap, s', t) {
      assert SlotOk(cap, s, t);
      if t != pos { WindowSlots(cap, Released(s), t, pos); }
    }
    forall q | q in s'.producers ensures ProducerOk(cap, s', q) {
      assert ProducerOk(cap, s, q);
      if q != p && (s.producers[q].AtPublish? || s.producers[q].AtWrite?) {
        WindowSlots(cap, Released(s), s.producers[q].pos, pos);
      }
    }
    if s.consumer.AtRead? || s.consumer.AtRelease? {
      WindowSlots(cap, Released(s), s.consumer.pos, pos);
    }
  }

  // ------------------------------------------------------------ the consumer

  /** A move of the consumer that changes only its own place. */
  lemma PeekMove<T>(cap: nat, s: State<T>, c: ConsumerPc<T>)
    requires Inv(cap, s) && !s.consumer.AtAdvance? && !c.AtAdvance?
    requires ConsumerOk(cap, s.(consumer := c))
    ensures Inv(cap, s.(consumer := c))
  {
    hide Slot;
    var s' := s.(consumer := c);
    forall t: nat | Released(s') <= t < Released(s') + cap ensures SlotOk(cap, s', t) {
      assert SlotOk(cap, s, t);
    }
    forall q | q in s'.producers ensures ProducerOk(cap, s', q) {
      assert ProducerOk(cap, s, q);
    }
  }

  lemma PopReleaseMove<T>(cap: nat, s: State<T>)
    requires Inv(cap, s) && Enabled(s, PopRelease)
    ensures Inv(cap, Apply(cap, s, PopRelease))
  {
    hide Slot;
    var s' := Apply(cap, s, PopRelease);
    var pos := s.consumer.pos;
    forall t: nat | Released(s') <= t < Released(s') + cap ensures SlotOk(cap, s', t) {
      if t == pos + cap {
        SlotNextLap(cap, pos);
      } else {
        assert SlotOk(cap, s, t);
        WindowSlots(cap, Released(s), t, pos);
      }
    }
    forall q | q in s'.producers ensures ProducerOk(cap, s', q) {
      assert ProducerOk(cap, s, q);
      if s.producers[q].AtPublish? || s.producers[q].AtWrite? {
        WindowSlots(cap, Released(s), s.producers[q].pos, pos);
      }
    }
  }

  lemma PopAdvanceMove<T>(cap: nat, s: State<T>)
    requires Inv(cap, s) && Enabled(s, PopAdvance)
    ensures Inv(cap, Apply(cap, s, PopAdvance))
  {
    hide Slot;
    var s' := Apply(cap, s, PopAdvance);
    forall t: nat | Released(s') <= t < Released(s') + cap ensures SlotOk(cap, s', t) {
      assert SlotOk(cap, s, t);
    }
    forall q | q in s'.producers ensures ProducerOk(cap, s', q) {
      assert ProducerOk(cap, s, q);
    }
  }

  lemma MoveKeepsInv<T>(cap: nat, s: State<T>, m: Move<T>)
    requires Inv(cap, s) && Enabled(s, m)
    ensures Inv(cap, Apply(cap, s, m))
  {
    hide Slot, Inv;
    assert Sized(cap, s) by { InvParts(cap, s); }
    InvParts(cap, s);
    match m {
      case Begin(p, item) => IdleMove(cap, s, p, AtLoad(item));
      case Load(p) => IdleMove(cap, s, p, AtSeq(s.producers[p].item, s.writePos));
      case LoadSeq(p) => LoadSeqMove(cap, s, p);
      case Cas(p, spurious) =>
        if s.producers[p].pos == s.writePos && !spurious {
          CasMove(cap, s, p);
        } else {
          IdleMove(cap, s, p, AtSeq(s.producers[p].item, s.writePos));
        }
      case Write(p) => WriteMove(cap, s, p);
      case Publish(p) => PublishMove(cap, s, p);
      case PopBegin => PeekMove(cap, s, AtPopSeq(s.readPos));
      case PopSeq => PeekMove(cap, s, Apply(cap, s, m).consumer);
      case PopRead => PeekMove(cap, s, Apply(cap, s, m).consumer);
      case PopRelease => PopReleaseMove(cap, s);
      case PopAdvance => PopAdvanceMove(cap, s);
      case EmptyBegin => PeekMove(cap, s, AtEmptySeq(s.readPos));
      case EmptySeq => PeekMove(cap, s, Waiting);
    }
  }

  lemma InvParts<T>(cap: nat, s: State<T>)
    requires Inv(cap, s)
    ensures Sized(cap, s) && |s.log| == s.writePos && ConsumerOk(cap, s)
    ensures !s.consumer.AtAdvance? ==> SlotOk(cap, s, s.readPos)
  {
    assert SlotOk(cap, s, Released(s));
  }
}
