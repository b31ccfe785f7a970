/** The bounded multi-producer single-consumer ring buffer as a protocol.  Every load, CAS
    and store on a shared location is one step; any producers and the one consumer
    interleave arbitrarily.  A successful CAS on the write position takes a ticket;
    `log` records, per ticket, who took it and what it pushes. */
module RingProtocol {

  /** Where a producer stands in `push`. */
  datatype ProducerPc<T> =
    | Resting
    | AtLoad(item: T)
    | AtSeq(item: T, pos: nat)
    | AtCas(item: T, pos: nat)
    | AtWrite(item: T, pos: nat)
    | AtPublish(item: T, pos: nat)

  /** Where the consumer stands in `pop` or `empty`. */
  datatype ConsumerPc<T> =
    | Waiting
    | AtPopSeq(pos: nat)
    | AtRead(pos: nat)
    | AtRelease(pos: nat, item: T)
    | AtAdvance(pos: nat, item: T)
    | AtEmptySeq(pos: nat)

  datatype State<T> = State(seqs: seq<int>, data: seq<T>, writePos: nat, readPos: nat,
                            producers: map<nat, ProducerPc<T>>, consumer: ConsumerPc<T>,
                            log: seq<(nat, T)>, popped: seq<T>)

  datatype Move<T> =
    | Begin(p: nat, item: T)
    | Load(p: nat)
    | LoadSeq(p: nat)
    | Cas(p: nat, spurious: bool)
    | Write(p: nat)
    | Publish(p: nat)
    | PopBegin
    | PopSeq
    | PopRead
    | PopRelease
    | PopAdvance
    | EmptyBegin
    | EmptySeq

  /** The slot of a position: `pos & (Capacity - 1)` for a power of two. */
  function Slot(cap: nat, pos: nat): (r: nat)
    requires cap > 0
    ensures r < cap
  {
    pos % cap
  }

  ghost predicate Sized<T>(cap: nat, s: State<T>) {
    cap > 0 && |s.seqs| == cap && |s.data| == cap
  }

  function Init<T>(cap: nat, ids: set<nat>, blank: T): State<T> {
    State(seq(cap, i => i), seq(cap, _ => blank), 0, 0, map p | p in ids :: Resting, Waiting, [], [])
  }

  predicate Enabled<T>(s: State<T>, m: Move<T>) {
    match m
    case Begin(p, _) => p in s.producers && s.producers[p].Resting?
    case Load(p) => p in s.producers && s.producers[p].AtLoad?
    case LoadSeq(p) => p in s.producers && s.producers[p].AtSeq?
    case Cas(p, _) => p in s.producers && s.producers[p].AtCas?
    case Write(p) => p in s.producers && s.producers[p].AtWrite?
    case Publish(p) => p in s.producers && s.producers[p].AtPublish?
    case PopBegin => s.consumer.Waiting?
    case PopSeq => s.consumer.AtPopSeq?
    case PopRead => s.consumer.AtRead?
    case PopRelease => s.consumer.AtRelease?
    case PopAdvance => s.consumer.AtAdvance?
    case EmptyBegin => s.consumer.Waiting?
    case EmptySeq => s.consumer.AtEmptySeq?
  }

  function At<T>(s: State<T>, p: nat, pc: ProducerPc<T>): State<T> {
    s.(producers := s.producers[p := pc])
  }

  /** The branch on `diff` after the load of the slot's sequence number: free, full, or
      overtaken. */
  function AfterSeq<T>(item: T, pos: nat, number: int): ProducerPc<T> {
    if number - pos == 0 then AtCas(item, pos)
    else if number - pos < 0 then Resting
    else AtLoad(item)
  }

  function Apply<T>(cap: nat, s: State<T>, m: Move<T>): State<T>
    requires Sized(cap, s) && Enabled(s, m)
  {
    match m
    case Begin(p, item) => At(s, p, AtLoad(item))
    case Load(p) => At(s, p, AtSeq(s.producers[p].item, s.writePos))
    case LoadSeq(p) =>
      var pc := s.producers[p];
      At(s, p, AfterSeq(pc.item, pc.pos, s.seqs[Slot(cap, pc.pos)]))
    case Cas(p, spurious) =>
      var pc := s.producers[p];
      if pc.pos == s.writePos && !spurious
      then At(s.(writePos := s.writePos + 1, log := s.log + [(p, pc.item)]), p, AtWrite(pc.item, pc.pos))
      else At(s, p, AtSeq(pc.item, s.writePos))
    case Write(p) =>
      var pc := s.producers[p];
      At(s.(data := s.data[Slot(cap, pc.pos) := pc.item]), p, AtPublish(pc.item, pc.pos))
    case Publish(p) =>
      var pc := s.producers[p];
      At(s.(seqs := s.seqs[Slot(cap, pc.pos) := pc.pos + 1]), p, Resting)
    case PopBegin => s.(consumer := AtPopSeq(s.readPos))
    case PopSeq =>
      var pos := s.consumer.pos;
      s.(consumer := if s.seqs[Slot(cap, pos)] - (pos + 1) != 0 then Waiting else AtRead(pos))
    case PopRead =>
      var pos := s.consumer.pos;
      s.(consumer := AtRelease(pos, s.data[Slot(cap, pos)]))
    case PopRelease =>
      var pos := s.consumer.pos;
      s.(seqs := s.seqs[Slot(cap, pos) := pos + cap], consumer := AtAdvance(pos, s.consumer.item))
    case PopAdvance =>
      s.(readPos := s.consumer.pos + 1, popped := s.popped + [s.consumer.item], consumer := Waiting)
    case EmptyBegin => s.(consumer := AtEmptySeq(s.readPos))
    case EmptySeq => s.(consumer := Waiting)
  }

  // ------------------------------------------------------------ the invariant

  /** Tickets whose slot has been handed back. */
  function Released<T>(s: State<T>): nat {
    if s.consumer.AtAdvance? then s.readPos + 1 else s.readPos
  }

  /** Ticket `t` has been taken and its value published. */
  ghost predicate Published<T>(cap: nat, s: State<T>, t: nat)
    requires Sized(cap, s)
  {
    t < s.writePos && s.seqs[Slot(cap, t)] == t + 1
  }

  /** Producer `p` is filling the slot of ticket `t`. */
  ghost predicate Fills<T>(s: State<T>, p: nat, t: nat) {
    p in s.producers && (s.producers[p].AtWrite? || s.producers[p].AtPublish?) && s.producers[p].pos == t
  }

  /** The sequence numbers of the `cap` tickets in the window tell what their slots hold. */
  ghost predicate SlotOk<T>(cap: nat, s: State<T>, t: nat)
    requires Sized(cap, s) && |s.log| == s.writePos
  {
    if s.seqs[Slot(cap, t)] == t + 1
    then t < s.writePos && s.data[Slot(cap, t)] == s.log[t].1
    else s.seqs[Slot(cap, t)] == t && (t < s.writePos ==> Fills(s, s.log[t].0, t))
  }

  ghost predicate ProducerOk<T>(cap: nat, s: State<T>, p: nat)
    requires Sized(cap, s) && |s.log| == s.writePos && p in s.producers
  {
    match s.producers[p]
    case AtSeq(item, pos) => pos <= s.writePos
    case AtCas(item, pos) => pos < s.writePos || (pos == s.writePos && pos < Released(s) + cap)
    case AtWrite(item, pos) =>
      Released(s) <= pos < s.writePos && s.seqs[Slot(cap, pos)] == pos && s.log[pos] == (p, item)
    case AtPublish(item, pos) =>
      Released(s) <= pos < s.writePos && s.seqs[Slot(cap, pos)] == pos && s.log[pos] == (p, item)
      && s.data[Slot(cap, pos)] == item
    case _ => true
  }

  ghost predicate ConsumerOk<T>(cap: nat, s: State<T>)
    requires Sized(cap, s) && |s.log| == s.writePos
  {
    match s.consumer
    case Waiting => true
    case AtPopSeq(pos) => pos == s.readPos
    case AtEmptySeq(pos) => pos == s.readPos
    case AtRead(pos) => pos == s.readPos && Published(cap, s, pos)
    case AtRelease(pos, item) => pos == s.readPos && Published(cap, s, pos) && item == s.log[pos].1
    case AtAdvance(pos, item) => pos == s.readPos && pos < s.writePos && item == s.log[pos].1
  }

  ghost predicate Inv<T>(cap: nat, s: State<T>) {
    && cap >= 2 && Sized(cap, s) && |s.log| == s.writePos
    && Released(s) <= s.writePos <= Released(s) + cap
    && (forall t: nat {:trigger SlotOk(cap, s, t)} :: Released(s) <= t < Released(s) + cap ==> SlotOk(cap, s, t))
    && (forall p {:trigger ProducerOk(cap, s, p)} :: p in s.producers ==> ProducerOk(cap, s, p))
    && ConsumerOk(cap, s)
    && |s.popped| == s.readPos
    && (forall k :: 0 <= k < s.readPos ==> s.popped[k] == s.log[k].1)
  }

  // ------------------------------------------------------------ slots

  lemma MulBounds(d: int, m: int)
    requires m > 0
    ensures d >= 1 ==> d * m >= m
    ensures d <= -1 ==> d * m <= -m
  {
  }

  lemma RemainderIs(a: nat, m: nat, q: nat, r: nat)
    requires m > 0 && a == q * m + r && r < m
    ensures a % m == r && a / m == q
  {
    var d := q - a / m;
    assert a == (a / m) * m + a % m;
    assert d * m == q * m - (a / m) * m;
    MulBounds(d, m);
  }

  /** Tickets less than one lap apart have different slots. */
  lemma SlotInjective(cap: nat, a: nat, b: nat)
    requires cap > 0 && a <= b < a + cap && Slot(cap, a) == Slot(cap, b)
    ensures a == b
  {
    var d := b / cap - a / cap;
    assert a == (a / cap) * cap + a % cap && b == (b / cap) * cap + b % cap;
    assert d * cap == (b / cap) * cap - (a / cap) * cap;
    MulBounds(d, cap);
  }

  lemma SlotNextLap(cap: nat, a: nat)
    requires cap > 0
    ensures Slot(cap, a + cap) == Slot(cap, a)
  {
    var q, r := a / cap, a % cap;
    assert a == q * cap + r;
    assert (q + 1) * cap == q * cap + cap;
    RemainderIs(a + cap, cap, q + 1, r);
  }

  /** `&` with a mask, bit by bit. */
  function BitAnd(a: nat, b: nat): nat {
    if a == 0 || b == 0 then 0 else 2 * BitAnd(a / 2, b / 2) + (if a % 2 == 1 && b % 2 == 1 then 1 else 0)
  }

  function Pow2(k: nat): (r: nat)
    ensures r >= 1
  {
    if k == 0 then 1 else 2 * Pow2(k - 1)
  }

  /** For a power-of-two capacity the mask picks the same slot as the remainder. */
  lemma {:induction false} MaskIsSlot(k: nat, pos: nat)
    ensures BitAnd(pos, Pow2(k) - 1) == Slot(Pow2(k), pos)
  {
    if k == 0 || pos == 0 {
      MaskIsSlotBase(k, pos);
    } else {
      hide BitAnd, Slot;
      var h := Pow2(k - 1);
      MaskIsSlot(k - 1, pos / 2);
      MaskDoubles(h, pos);
    }
  }

  lemma MaskIsSlotBase(k: nat, pos: nat)
    requires k == 0 || pos == 0
    ensures BitAnd(pos, Pow2(k) - 1) == Slot(Pow2(k), pos)
  {
    if pos == 0 {
      RemainderIs(0, Pow2(k), 0, 0);
    }
  }

  lemma MaskDoubles(h: nat, pos: nat)
    requires h >= 1 && pos > 0 && BitAnd(pos / 2, h - 1) == Slot(h, pos / 2)
    ensures BitAnd(pos, 2 * h - 1) == Slot(2 * h, pos)
  {
    HalfRemainder(pos, h);
    BitAndOdd(pos, h);
  }

  lemma BitAndOdd(pos: nat, h: nat)
    requires pos > 0 && h >= 1
    ensures BitAnd(pos, 2 * h - 1) == 2 * BitAnd(pos / 2, h - 1) + pos % 2
  {
    assert (2 * h - 1) / 2 == h - 1 && (2 * h - 1) % 2 == 1;
  }

  lemma HalfRemainder(pos: nat, h: nat)
    requires h >= 1
    ensures pos % (2 * h) == 2 * ((pos / 2) % h) + pos % 2
  {
    var q, r := (pos / 2) / h, (pos / 2) % h;
    assert pos / 2 == q * h + r;
    assert 2 * (q * h) == q * (2 * h);
    RemainderIs(pos, 2 * h, q, 2 * r + pos % 2);
  }
}
