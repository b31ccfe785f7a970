/** The ring buffer in its own form: `push`, `pop` and `empty` as methods over the slot
    array and the two position counters.  Before each atomic operation the other parties
    make any moves an arbitrary finite schedule names. */
module LockFreeRingBufferModel {
  import opened RingProtocol
  import opened RingInvariant
  import opened RingTheorems

  datatype Option<T> = None | Some(value: T)

  datatype Party = Producer(p: nat) | Consumer

  function Mover<T>(m: Move<T>): Party {
    match m
    case Begin(p, _) => Producer(p)
    case Load(p) => Producer(p)
    case LoadSeq(p) => Producer(p)
    case Cas(p, _) => Producer(p)
    case Write(p) => Producer(p)
    case Publish(p) => Producer(p)
    case _ => Consumer
  }

  /** What the moves of others leave to a party: its place, and its own record. */
  ghost predicate SamePlace<T>(s: State<T>, s': State<T>, me: Party) {
    && s.writePos <= s'.writePos
    && match me
       case Producer(p) => p in s.producers && p in s'.producers && s'.producers[p] == s.producers[p]
                           && PushedBy(s'.log, p) == PushedBy(s.log, p)
       case Consumer => s'.consumer == s.consumer && s'.readPos == s.readPos && s'.popped == s.popped
                        && s.log <= s'.log
  }

  lemma OthersKeepPlace<T(!new)>(cap: nat, s: State<T>, m: Move<T>, me: Party)
    requires Inv(cap, s) && Enabled(s, m) && Mover(m) != me && (me.Producer? ==> me.p in s.producers)
    ensures SamePlace(s, Apply(cap, s, m), me)
  {
    if me.Producer? {
      TicketsFollowCalls(cap, s, m, me.p);
    }
    hide Slot;
  }

  class LockFreeRingBuffer<T(0,!new)> {
    const capacity: nat
    const seqs: array<int>
    const data: array<T>
    var writePos: nat
    var readPos: nat

    // The parties' places, and the two records the properties speak of.
    var producers: map<nat, ProducerPc<T>>
    var consumer: ConsumerPc<T>
    var log: seq<(nat, T)>
    var popped: seq<T>
    /** Batches of moves of the others; the flag makes a following CAS fail spuriously. */
    var schedule: seq<(seq<Move<T>>, bool)>

    function View(): State<T>
      reads this, seqs, data
    {
      State(seqs[..], data[..], writePos, readPos, producers, consumer, log, popped)
    }

    ghost predicate Good()
      reads this, seqs, data
    {
      seqs as object != data && seqs.Length == capacity && data.Length == capacity && Inv(capacity, View())
    }

    constructor (capacity: nat, ids: set<nat>, blank: T, schedule: seq<(seq<Move<T>>, bool)>)
      ensures capacity >= 2 ==> Good()
      ensures fresh(seqs) && fresh(data) && seqs.Length == capacity && data.Length == capacity
      ensures View() == Init(capacity, ids, blank) && this.schedule == schedule
    {
      this.capacity := capacity;
      seqs := new int[capacity](i => i);
      data := new T[capacity](_ => blank);
      writePos, readPos := 0, 0;
      producers := map p | p in ids :: Resting;
      consumer, log, popped := Waiting, [], [];
      this.schedule := schedule;
      new;
      if capacity >= 2 {
        InitInv(capacity, ids, blank);
      }
      assert seqs[..] == seq(capacity, i => i);
      assert data[..] == seq(capacity, _ => blank);
    }

    method Become(s: State<T>)
      requires |s.seqs| == seqs.Length && |s.data| == data.Length && seqs as object != data
      modifies this, seqs, data
      ensures View() == s && schedule == old(schedule)
    {
      forall i | 0 <= i < seqs.Length { seqs[i] := s.seqs[i]; }
      forall i | 0 <= i < data.Length { data[i] := s.data[i]; }
      writePos, readPos := s.writePos, s.readPos;
      producers, consumer, log, popped := s.producers, s.consumer, s.log, s.popped;
      assert seqs[..] == s.seqs && data[..] == s.data;
    }

    /** The other parties move; reports whether the next CAS is to fail spuriously. */
    method Interfere(me: Party) returns (spurious: bool)
      requires Good() && (me.Producer? ==> me.p in producers)
      modifies this, seqs, data
      ensures Good() && SamePlace(old(View()), View(), me)
      ensures old(schedule) == [] ==> View() == old(View()) && schedule == [] && !spurious
      ensures old(schedule) != [] ==> |schedule| < old(|schedule|)
    {
      if schedule == [] {
        return false;
      }
      var (moves, flag) := schedule[0];
      spurious := flag;
      schedule := schedule[1..];
      for k := 0 to |moves|
        invariant Good() && SamePlace(old(View()), View(), me) && (me.Producer? ==> me.p in producers)
        invariant schedule == old(schedule)[1..]
      {
        hide Inv, Slot;
        assert Sized(capacity, View()) by { InvParts(capacity, View()); }
        if Mover(moves[k]) != me && Enabled(View(), moves[k]) {
          var s := Apply(capacity, View(), moves[k]);
          MoveKeepsInv(capacity, View(), moves[k]);
          OthersKeepPlace(capacity, View(), moves[k], me);
          assert Sized(capacity, s) by { InvParts(capacity, s); }
          Become(s);
        }
      }
    }

    lemma Before(m: Move<T>)
      requires Good() && Enabled(View(), m)
      ensures Sized(capacity, View()) && Inv(capacity, Apply(capacity, View(), m))
    {
      hide Inv, Slot;
      assert Sized(capacity, View()) by { InvParts(capacity, View()); }
      MoveKeepsInv(capacity, View(), m);
    }

    /** What a producer can read off when it looks at the slot of position `pos`. */
    lemma Looks(p: nat)
      requires Good() && p in producers && producers[p].AtSeq?
      ensures capacity > 0 && producers[p].pos <= writePos
      ensures seqs[Slot(capacity, producers[p].pos)] < producers[p].pos <==>
        producers[p].pos == Released(View()) + capacity
      ensures seqs[Slot(capacity, producers[p].pos)] < producers[p].pos ==> writePos == Released(View()) + capacity
      ensures seqs[Slot(capacity, producers[p].pos)] > producers[p].pos ==> producers[p].pos < writePos
    {
      assert ProducerOk(capacity, View(), p);
      AtMostOneLapBehind(capacity, View(), producers[p].pos);
    }

    ghost predicate Stands(p: nat, at: ProducerPc<T>)
      reads this, seqs, data
    {
      Good() && p in producers && producers[p] == at
    }

    /** What interference may do to the schedule. */
    twostate predicate Consumed()
      reads this
    {
      && (old(schedule) == [] ==> schedule == [] && writePos == old(writePos))
      && (old(schedule) != [] ==> |schedule| < old(|schedule|))
    }

    method LoadWritePos(p: nat, item: T) returns (pos: nat)
      requires Stands(p, AtLoad(item))
      modifies this, seqs, data
      ensures Stands(p, AtSeq(item, pos)) && PushedBy(log, p) == old(PushedBy(log, p))
      ensures pos == writePos && Consumed()
    {
      hide Inv, Slot, PushedBy;
      var _ := Interfere(Producer(p));
      Before(Load(p));
      pos := writePos;
      producers := producers[p := AtSeq(item, pos)];
    }

    method LoadNumber(p: nat, item: T, pos: nat) returns (diff: int)
      requires Stands(p, AtSeq(item, pos))
      modifies this, seqs, data
      ensures Stands(p, if diff == 0 then AtCas(item, pos) else if diff < 0 then Resting else AtLoad(item))
      ensures PushedBy(log, p) == old(PushedBy(log, p)) && Consumed() && pos <= writePos
      ensures diff < 0 ==> writePos == Released(View()) + capacity
      ensures diff > 0 ==> pos < writePos
    {
      hide Inv, Slot, PushedBy;
      var _ := Interfere(Producer(p));
      Before(LoadSeq(p));
      Looks(p);
      diff := seqs[Slot(capacity, pos)] - pos;
      producers := producers[p := if diff == 0 then AtCas(item, pos) else if diff < 0 then Resting else AtLoad(item)];
    }

    method TryTake(p: nat, item: T, pos: nat) returns (won: bool)
      requires Stands(p, AtCas(item, pos)) && pos <= writePos
      modifies this, seqs, data
      ensures Stands(p, if won then AtWrite(item, pos) else AtSeq(item, writePos))
      ensures PushedBy(log, p) == old(PushedBy(log, p)) + if won then [item] else []
      ensures |schedule| <= old(|schedule|)
      ensures old(schedule) == [] && !won ==> pos < writePos == old(writePos)
    {
      hide Inv, Slot;
      var spurious := Interfere(Producer(p));
      Before(Cas(p, spurious));
      won := writePos == pos && !spurious;
      if won {
        writePos := writePos + 1;
        log := log + [(p, item)];
        producers := producers[p := AtWrite(item, pos)];
        PushedByPrefixLast(log, p);
      } else {
        producers := producers[p := AtSeq(item, writePos)];
      }
    }

    lemma PushedByPrefixLast(l: seq<(nat, T)>, p: nat)
      requires l != []
      ensures PushedBy(l, p) == PushedBy(l[..|l| - 1], p) + if l[|l| - 1].0 == p then [l[|l| - 1].1] else []
    {
    }

    /** The plain store of the item, then the release store of the sequence number. */
    method Fill(p: nat, item: T, pos: nat)
      requires Stands(p, AtWrite(item, pos))
      modifies this, seqs, data
      ensures Stands(p, Resting) && PushedBy(log, p) == old(PushedBy(log, p))
    {
      hide Inv, Slot, PushedBy;
      var _ := Interfere(Producer(p));
      Before(Write(p));
      var s := Apply(capacity, View(), Write(p));
      data[Slot(capacity, pos)] := item;
      producers := producers[p := AtPublish(item, pos)];
      assert View() == s;
      var _ := Interfere(Producer(p));
      Before(Publish(p));
      s := Apply(capacity, View(), Publish(p));
      seqs[Slot(capacity, pos)] := pos + 1;
      producers := producers[p := Resting];
      assert View() == s;
    }

    /** `push`, as producer `p` runs it.  It takes a ticket and fills it, or finds the
        buffer full; either way `p`'s record shows exactly that. */
    method Push(p: nat, item: T) returns (ok: bool)
      requires Stands(p, Resting)
      modifies this, seqs, data
      ensures Stands(p, Resting)
      ensures PushedBy(log, p) == old(PushedBy(log, p)) + if ok then [item] else []
      ensures !ok ==> writePos == Released(View()) + capacity
    {
      hide Inv, Slot, PushedBy;
      Before(Begin(p, item));
      producers := producers[p := AtLoad(item)];
      var pos: nat := LoadWritePos(p, item);
      while true
        invariant Stands(p, AtSeq(item, pos)) && PushedBy(log, p) == old(PushedBy(log, p))
        invariant pos <= writePos
        decreases |schedule|, if pos == writePos then 0 else 1
      {
        var free := LoadNumber(p, item, pos);
        if free == 0 {
          var won := TryTake(p, item, pos);
          if won {
            break;
          }
          pos := writePos;
        } else if free < 0 {
          return false;
        } else {
          pos := LoadWritePos(p, item);
        }
      }
      Fill(p, item, pos);
      ok := true;
    }

    // ---------------------------------------------------------- the consumer

    /** `pop`.  It returns the value of the next ticket, or nothing exactly when that
        ticket is unpublished at the moment its number is loaded. */
    method Pop() returns (r: Option<T>)
      requires Good() && consumer.Waiting?
      modifies this, seqs, data
      ensures Good() && consumer.Waiting?
      ensures r.None? ==> popped == old(popped) && readPos == old(readPos) && !Published(capacity, View(), readPos)
      ensures r.Some? ==> popped == old(popped) + [r.value] && readPos == old(readPos) + 1
      ensures r.Some? ==> old(readPos) < |log| && r.value == log[old(readPos)].1
    {
      hide Inv, Slot;
      var _ := Interfere(Consumer);
      Before(PopBegin);
      var pos := readPos;
      consumer := AtPopSeq(pos);
      var _ := Interfere(Consumer);
      Before(PopSeq);
      if seqs[Slot(capacity, pos)] - (pos + 1) != 0 {
        consumer := Waiting;
        return None;
      }
      consumer := AtRead(pos);
      r := Take(pos);
    }

    method Take(pos: nat) returns (r: Option<T>)
      requires Good() && consumer == AtRead(pos)
      modifies this, seqs, data
      ensures Good() && consumer.Waiting?
      ensures r.Some? && popped == old(popped) + [r.value] && readPos == old(readPos) + 1
      ensures old(readPos) < |log| && r.value == log[old(readPos)].1
    {
      hide Inv, Slot;
      var _ := Interfere(Consumer);
      Before(PopRead);
      var item := data[Slot(capacity, pos)];
      consumer := AtRelease(pos, item);
      Release(pos, item);
      var _ := Interfere(Consumer);
      Before(PopAdvance);
      Returns();
      readPos := pos + 1;
      popped := popped + [item];
      consumer := Waiting;
      r := Some(item);
    }

    method Release(pos: nat, item: T)
      requires Good() && consumer == AtRelease(pos, item)
      modifies this, seqs, data
      ensures Good() && consumer == AtAdvance(pos, item) && popped == old(popped) && readPos == old(readPos)
    {
      hide Inv, Slot;
      var _ := Interfere(Consumer);
      Before(PopRelease);
      var s := Apply(capacity, View(), PopRelease);
      seqs[Slot(capacity, pos)] := pos + capacity;
      consumer := AtAdvance(pos, item);
      assert View() == s;
    }

    lemma Returns()
      requires Good() && consumer.AtAdvance?
      ensures consumer.pos == readPos < |log| && consumer.item == log[readPos].1
    {
    }

    /** `empty`, for the consumer: its test `< 0` agrees with the test of `pop`. */
    method Empty() returns (r: bool)
      requires Good() && consumer.Waiting?
      modifies this, seqs, data
      ensures Good() && consumer.Waiting? && popped == old(popped) && readPos == old(readPos)
      ensures r <==> !Published(capacity, View(), readPos)
    {
      hide Inv, Slot;
      var _ := Interfere(Consumer);
      Before(EmptyBegin);
      var rp := readPos;
      consumer := AtEmptySeq(rp);
      var _ := Interfere(Consumer);
      Before(EmptySeq);
      Reads();
      r := seqs[Slot(capacity, rp)] - (rp + 1) < 0;
      consumer := Waiting;
    }

    lemma Reads()
      requires Good() && !consumer.AtAdvance?
      ensures Sized(capacity, View())
      ensures seqs[Slot(capacity, readPos)] == readPos + 1 ==> Published(capacity, View(), readPos)
      ensures seqs[Slot(capacity, readPos)] == readPos || seqs[Slot(capacity, readPos)] == readPos + 1
    {
      assert SlotOk(capacity, View(), readPos);
    }
  }
}
