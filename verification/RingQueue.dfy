/**
  The lock-free multi-producer single-consumer ring queue, as interleaved atomic steps.

  Any number of producers run `TryPush`, one consumer runs `TryPopOne`.  A step is one
  atomic access: a load of enqueue_pos_, a load of a slot's sequence, a compare-exchange,
  the construction of the element, the publishing store, and on the consumer side the load
  that finds the head published, the move-and-destroy, and the releasing store.  A step that is not
  enabled changes nothing, so every list of actions is a run.
 */
module RingQueue {
  import opened Common

  /** `cell` is the raw storage: `None` while no element is alive in it. */
  datatype Slot<T> = Slot(sequence: nat, cell: Option<T>)

  /** Where a producer stands inside `TryPush`. `fullThen` remembers whether every ticket was
      taken at the instant the slot's sequence was read. */
  datatype Producer<T> =
    | Idle
    | Start(value: T)
    | Positioned(value: T, pos: nat)
    | Sampled(value: T, pos: nat, seen: nat, fullThen: bool)
    | Claimed(value: T, pos: nat)
    | Constructed(value: T, pos: nat)
    | Accepted(value: T, pos: nat)
    | Rejected(value: T, fullThen: bool)

  datatype Consumer<T> = Resting | Ready | Taken(value: T)

  /** `tickets[k]`, `winners[k]` record the value and the producer of the k-th successful
      compare-exchange; `popped` records what the consumer has handed out. */
  datatype Ring<T> = Ring(
    enq: nat,
    deq: nat,
    slots: seq<Slot<T>>,
    producers: map<nat, Producer<T>>,
    consumer: Consumer<T>,
    tickets: seq<T>,
    winners: seq<nat>,
    popped: seq<T>)

  datatype Action<T> =
    | Begin(p: nat, value: T)
    | LoadPos(p: nat)
    | LoadSequence(p: nat)
    | Decide(p: nat, spurious: bool)
    | Construct(p: nat)
    | Publish(p: nat)
    | PopCheck
    | PopTake
    | PopRelease

  function Init<T>(capacity: nat): Ring<T>
  {
    Ring(0, 0, seq(capacity, (i: nat) => Slot(i, None)), map[], Resting, [], [], [])
  }

  /** The slot index of a position; `pos & kMask` in the source (see `MaskIsRemainder`). */
  function At(pos: nat, capacity: nat): (i: nat)
    requires capacity > 0
    ensures i < capacity
  {
    pos % capacity
  }

  function SlotAt<T>(s: Ring<T>, pos: nat): Slot<T>
    requires |s.slots| > 0
  {
    s.slots[At(pos, |s.slots|)]
  }

  function ProducerOf<T>(s: Ring<T>, p: nat): Producer<T>
  {
    if p in s.producers then s.producers[p] else Idle
  }

  predicate Full<T>(s: Ring<T>) { s.enq == s.deq + |s.slots| }

  function WithProducer<T>(s: Ring<T>, p: nat, pc: Producer<T>): Ring<T>
  {
    s.(producers := s.producers[p := pc])
  }

  function WithSlot<T>(s: Ring<T>, pos: nat, slot: Slot<T>): Ring<T>
    requires |s.slots| > 0
  {
    s.(slots := s.slots[At(pos, |s.slots|) := slot])
  }

  /** One atomic step. */
  function Next<T>(s: Ring<T>, a: Action<T>): Ring<T>
    requires |s.slots| > 0
  {
    match a
    case Begin(p, v) =>
      var pc := ProducerOf(s, p);
      if pc.Idle? || pc.Accepted? || pc.Rejected? then WithProducer(s, p, Start(v)) else s
    case LoadPos(p) =>
      var pc := ProducerOf(s, p);
      if pc.Start? then WithProducer(s, p, Positioned(pc.value, s.enq)) else s
    case LoadSequence(p) =>
      var pc := ProducerOf(s, p);
      if pc.Positioned?
      then WithProducer(s, p, Sampled(pc.value, pc.pos, SlotAt(s, pc.pos).sequence, Full(s)))
      else s
    case Decide(p, spurious) =>
      var pc := ProducerOf(s, p);
      if !pc.Sampled? then s
      else if pc.seen == pc.pos then CompareExchange(s, p, pc, spurious)
      else if pc.seen < pc.pos then WithProducer(s, p, Rejected(pc.value, pc.fullThen))
      else WithProducer(s, p, Start(pc.value))
    case Construct(p) =>
      var pc := ProducerOf(s, p);
      if pc.Claimed?
      then WithProducer(
             WithSlot(s, pc.pos, SlotAt(s, pc.pos).(cell := Some(pc.value))), p, Constructed(pc.value, pc.pos))
      else s
    case Publish(p) =>
      var pc := ProducerOf(s, p);
      if pc.Constructed?
      then WithProducer(
             WithSlot(s, pc.pos, SlotAt(s, pc.pos).(sequence := pc.pos + 1)), p, Accepted(pc.value, pc.pos))
      else s
    case PopCheck =>
      if s.consumer.Resting? && SlotAt(s, s.deq).sequence >= s.deq + 1 then s.(consumer := Ready) else s
    case PopTake =>
      if s.consumer.Ready? && SlotAt(s, s.deq).cell.Some?
      then WithSlot(s, s.deq, SlotAt(s, s.deq).(cell := None)).(consumer := Taken(SlotAt(s, s.deq).cell.value))
      else s
    case PopRelease =>
      if s.consumer.Taken?
      then WithSlot(s, s.deq, SlotAt(s, s.deq).(sequence := s.deq + |s.slots|)).(
             deq := s.deq + 1, consumer := Resting, popped := s.popped + [s.consumer.value])
      else s
  }

  /** compare_exchange_weak: on failure the producer keeps the value it found in enqueue_pos_. */
  function CompareExchange<T>(s: Ring<T>, p: nat, pc: Producer<T>, spurious: bool): Ring<T>
    requires pc.Sampled?
  {
    if s.enq == pc.pos && !spurious then
      WithProducer(s, p, Claimed(pc.value, pc.pos)).(
        enq := s.enq + 1, tickets := s.tickets + [pc.value], winners := s.winners + [p])
    else
      WithProducer(s, p, Positioned(pc.value, s.enq))
  }

  function Exec<T>(s: Ring<T>, run: seq<Action<T>>): (r: Ring<T>)
    requires |s.slots| > 0
    ensures |r.slots| == |s.slots|
    decreases |run|
  {
    if |run| == 0 then s else Exec(Next(s, run[0]), run[1..])
  }

  // ---------------------------------------------------------------------------------------
  // The inductive invariant
  // ---------------------------------------------------------------------------------------

  ghost predicate Cursors<T>(s: Ring<T>)
  {
    && |s.slots| >= 2
    && s.deq <= s.enq <= s.deq + |s.slots|
    && |s.tickets| == s.enq == |s.winners|
  }

  /** Positions not yet claimed in this lap: free, and numbered for their next producer. */
  ghost predicate FreeAhead<T>(s: Ring<T>)
    requires Cursors(s)
  {
    forall pos: nat :: s.enq <= pos < s.deq + |s.slots| ==> SlotAt(s, pos) == Slot(pos, None)
  }

  /** A claimed position is either still held by the producer that won it, or published. */
  ghost predicate HeldOrPublished<T>(s: Ring<T>, pos: nat)
    requires Cursors(s) && s.deq <= pos < s.enq
  {
    var slot := SlotAt(s, pos);
    var owner := ProducerOf(s, s.winners[pos]);
    || (slot.sequence == pos
        && (|| (owner == Claimed(s.tickets[pos], pos) && slot.cell == None)
            || (owner == Constructed(s.tickets[pos], pos) && slot.cell == Some(s.tickets[pos]))))
    || (slot.sequence == pos + 1
        && slot.cell == if pos == s.deq && s.consumer.Taken? then None else Some(s.tickets[pos]))
  }

  ghost predicate Occupied<T>(s: Ring<T>)
    requires Cursors(s)
  {
    forall pos: nat :: s.deq <= pos < s.enq ==> HeldOrPublished(s, pos)
  }

  ghost predicate ProducerOk<T>(s: Ring<T>, p: nat)
    requires Cursors(s)
  {
    match ProducerOf(s, p)
    case Positioned(_, pos) => pos <= s.enq
    case Sampled(_, pos, seen, fullThen) =>
      && pos <= s.enq
      && seen <= SlotAt(s, pos).sequence
      && (seen < pos ==> fullThen)
      && (seen > pos ==> pos < s.enq)
    case Claimed(v, pos) =>
      s.deq <= pos < s.enq && s.winners[pos] == p && s.tickets[pos] == v && SlotAt(s, pos).sequence == pos
    case Constructed(v, pos) =>
      s.deq <= pos < s.enq && s.winners[pos] == p && s.tickets[pos] == v && SlotAt(s, pos).sequence == pos
    case Accepted(v, pos) => pos < s.enq && s.winners[pos] == p && s.tickets[pos] == v
    case Rejected(_, fullThen) => fullThen
    case _ => true
  }

  ghost predicate ConsumerOk<T>(s: Ring<T>)
    requires Cursors(s)
  {
    && s.popped == s.tickets[..s.deq]
    && (!s.consumer.Resting? ==> s.deq < s.enq && SlotAt(s, s.deq).sequence == s.deq + 1)
    && (s.consumer.Taken? ==> s.consumer.value == s.tickets[s.deq])
  }

  ghost predicate Inv<T>(s: Ring<T>)
  {
    && Cursors(s)
    && FreeAhead(s)
    && Occupied(s)
    && (forall p: nat :: ProducerOk(s, p))
    && ConsumerOk(s)
  }

  // ---------------------------------------------------------------------------------------
  // Slot arithmetic
  // ---------------------------------------------------------------------------------------

  lemma MultipleGap(c: nat, d: int)
    ensures d >= 1 ==> c * d >= c
    ensures d <= -1 ==> c * d <= 0 - c
    ensures d == 0 ==> c * d == 0
  {
  }

  /** Two positions less than one lap apart never share a slot. */
  lemma LapInjective(a: nat, b: nat, capacity: nat)
    requires capacity > 0 && a < b < a + capacity
    ensures At(a, capacity) != At(b, capacity)
  {
    var d := b / capacity - a / capacity;
    MultipleGap(capacity, d);
    assert b - a == capacity * d + (b % capacity - a % capacity);
  }

  lemma WholeLap(a: nat, capacity: nat)
    requires capacity > 0
    ensures At(a + capacity, capacity) == At(a, capacity)
  {
    var d := (a + capacity) / capacity - a / capacity - 1;
    MultipleGap(capacity, d);
    assert capacity * d == a % capacity - (a + capacity) % capacity;
  }

  /** Writing one slot inside the current lap leaves the other positions of the lap alone. */
  lemma OtherSlots<T>(s: Ring<T>, pos: nat, slot: Slot<T>)
    requires |s.slots| > 0 && s.deq <= pos < s.deq + |s.slots|
    ensures var t := WithSlot(s, pos, slot);
            && SlotAt(t, pos) == slot
            && forall q: nat :: s.deq <= q < s.deq + |s.slots| && q != pos ==> SlotAt(t, q) == SlotAt(s, q)
  {
    forall q: nat | s.deq <= q < s.deq + |s.slots| && q != pos
      ensures SlotAt(WithSlot(s, pos, slot), q) == SlotAt(s, q)
    {
      if q < pos { LapInjective(q, pos, |s.slots|); } else { LapInjective(pos, q, |s.slots|); }
    }
  }

  // ---------------------------------------------------------------------------------------
  // Every step keeps the invariant
  // ---------------------------------------------------------------------------------------

  lemma InitInv<T>(capacity: nat)
    requires capacity >= 2
    ensures Inv(Init<T>(capacity))
  {
    var s := Init<T>(capacity);
    forall pos: nat | pos < capacity
      ensures At(pos, capacity) == pos
    {
      MultipleGap(capacity, pos / capacity);
    }
    assert FreeAhead(s);
  }

  /** A producer's private move: the shared cursors and slots stay as they are. */
  lemma LocalMove<T>(s: Ring<T>, p: nat, pc: Producer<T>)
    requires Inv(s)
    requires ProducerOk(WithProducer(s, p, pc), p)
    requires !ProducerOf(s, p).Claimed? && !ProducerOf(s, p).Constructed?
    ensures Inv(WithProducer(s, p, pc))
  {
    var t := WithProducer(s, p, pc);
    forall pos: nat | t.deq <= pos < t.enq
      ensures HeldOrPublished(t, pos)
    {
      assert HeldOrPublished(s, pos);
      assert SlotAt(t, pos) == SlotAt(s, pos);
    }
    forall q: nat
      ensures ProducerOk(t, q)
    {
      assert ProducerOk(s, q);
    }
    assert forall pos: nat :: SlotAt(t, pos) == SlotAt(s, pos);
  }

  /** What a producer learns when it reads the sequence of the slot it is aiming at. */
  lemma SampleVerdict<T>(s: Ring<T>, pos: nat)
    requires Inv(s) && pos <= s.enq
    ensures var seen := SlotAt(s, pos).sequence;
            && (seen < pos <==> pos == s.enq && Full(s))
            && (seen > pos ==> pos < s.enq)
            && (seen == pos ==> (pos == s.enq && !Full(s)) || (s.deq <= pos < s.enq && SlotAt(s, pos).sequence == pos))
  {
    var c := |s.slots|;
    if pos == s.enq {
      if Full(s) {
        WholeLap(s.deq, c);
        assert HeldOrPublished(s, s.deq);
      } else {
        assert SlotAt(s, pos) == Slot(pos, None);
      }
    } else if s.deq <= pos {
      assert HeldOrPublished(s, pos);
    } else {
      PastPositions(s, pos);
    }
  }

  /** A slot whose position was consumed carries a later lap's number. */
  lemma PastPositions<T>(s: Ring<T>, pos: nat)
    requires Inv(s) && pos < s.deq
    ensures SlotAt(s, pos).sequence > pos
    decreases s.deq - pos
  {
    var c := |s.slots|;
    WholeLap(pos, c);
    if pos + c < s.deq {
      PastPositions(s, pos + c);
    } else if pos + c < s.enq {
      assert HeldOrPublished(s, pos + c);
    } else {
      assert SlotAt(s, pos + c) == Slot(pos + c, None);
    }
  }

  /** The compare-exchange acts on a sequence read earlier; it still only ever wins a free slot. */
  lemma WinOwnsFreeSlot<T>(s: Ring<T>, p: nat)
    requires Inv(s)
    requires var pc := ProducerOf(s, p); pc.Sampled? && pc.seen == pc.pos && s.enq == pc.pos
    ensures !Full(s) && SlotAt(s, s.enq) == Slot(s.enq, None)
  {
    var pos := s.enq;
    assert ProducerOk(s, p);
    SampleVerdict(s, pos);
    assert SlotAt(s, pos) == Slot(pos, None);
  }

  lemma DecideKeeps<T>(s: Ring<T>, p: nat, spurious: bool)
    requires Inv(s)
    ensures Inv(Next(s, Decide(p, spurious)))
  {
    var pc := ProducerOf(s, p);
    assert ProducerOk(s, p);
    if pc.Sampled? {
      if pc.seen == pc.pos && s.enq == pc.pos && !spurious {
        WinKeeps(s, p);
      } else if pc.seen == pc.pos {
        LocalMove(s, p, Positioned(pc.value, s.enq));
      } else if pc.seen < pc.pos {
        LocalMove(s, p, Rejected(pc.value, pc.fullThen));
      } else {
        LocalMove(s, p, Start(pc.value));
      }
    }
  }

  lemma WinKeeps<T>(s: Ring<T>, p: nat)
    requires Inv(s)
    requires var pc := ProducerOf(s, p); pc.Sampled? && pc.seen == pc.pos && s.enq == pc.pos
    ensures Inv(CompareExchange(s, p, ProducerOf(s, p), false))
  {
    WinOwnsFreeSlot(s, p);
    var t := CompareExchange(s, p, ProducerOf(s, p), false);
    assert forall pos: nat :: SlotAt(t, pos) == SlotAt(s, pos);
    forall pos: nat | t.deq <= pos < t.enq
      ensures HeldOrPublished(t, pos)
    {
      if pos < s.enq {
        assert HeldOrPublished(s, pos);
      }
    }
    forall q: nat
      ensures ProducerOk(t, q)
    {
      assert ProducerOk(s, q);
    }
    assert t.tickets[..t.deq] == s.tickets[..s.deq];
  }

  lemma ConstructKeeps<T>(s: Ring<T>, p: nat)
    requires Inv(s) && ProducerOf(s, p).Claimed?
    ensures SlotAt(s, ProducerOf(s, p).pos).cell == None
    ensures Inv(Next(s, Construct(p)))
  {
    var held := ProducerOf(s, p);
    assert ProducerOk(s, p);
    assert HeldOrPublished(s, held.pos);
    var slot := Slot(held.pos, Some(held.value));
    var t := Next(s, Construct(p));
    OtherSlots(s, held.pos, slot);
    SequencesGrow(s, held.pos, slot);
    assert t.slots == WithSlot(s, held.pos, slot).slots;
    forall pos: nat | t.deq <= pos < t.enq
      ensures HeldOrPublished(t, pos)
    {
      assert HeldOrPublished(s, pos);
    }
    forall q: nat
      ensures ProducerOk(t, q)
    {
      assert ProducerOk(s, q);
    }
  }

  lemma PublishKeeps<T>(s: Ring<T>, p: nat)
    requires Inv(s) && ProducerOf(s, p).Constructed?
    ensures Inv(Next(s, Publish(p)))
  {
    var held := ProducerOf(s, p);
    assert ProducerOk(s, p);
    assert HeldOrPublished(s, held.pos);
    var slot := Slot(held.pos + 1, Some(held.value));
    var t := Next(s, Publish(p));
    OtherSlots(s, held.pos, slot);
    SequencesGrow(s, held.pos, slot);
    assert t.slots == WithSlot(s, held.pos, slot).slots;
    forall pos: nat | t.deq <= pos < t.enq
      ensures HeldOrPublished(t, pos)
    {
      assert HeldOrPublished(s, pos);
    }
    forall q: nat
      ensures ProducerOk(t, q)
    {
      assert ProducerOk(s, q);
    }
  }

  lemma SequencesGrow<T>(s: Ring<T>, pos: nat, slot: Slot<T>)
    requires |s.slots| > 0 && slot.sequence >= SlotAt(s, pos).sequence
    ensures forall k: nat :: SlotAt(WithSlot(s, pos, slot), k).sequence >= SlotAt(s, k).sequence
  {
  }

  lemma TakeKeeps<T>(s: Ring<T>)
    requires Inv(s)
    ensures s.consumer.Ready? ==> SlotAt(s, s.deq) == Slot(s.deq + 1, Some(s.tickets[s.deq]))
    ensures Inv(Next(s, PopTake))
  {
    if s.consumer.Ready? {
      assert HeldOrPublished(s, s.deq);
      var slot := SlotAt(s, s.deq).(cell := None);
      var t := Next(s, PopTake);
      OtherSlots(s, s.deq, slot);
      assert forall q: nat :: SlotAt(t, q) == SlotAt(WithSlot(s, s.deq, slot), q);
      forall pos: nat | t.deq <= pos < t.enq
        ensures HeldOrPublished(t, pos)
      {
        assert HeldOrPublished(s, pos);
      }
      forall q: nat
        ensures ProducerOk(t, q)
      {
        assert ProducerOk(s, q);
        assert forall k: nat :: SlotAt(t, k).sequence == SlotAt(s, k).sequence;
      }
    }
  }

  lemma ReleaseKeeps<T>(s: Ring<T>)
    requires Inv(s)
    ensures Inv(Next(s, PopRelease))
  {
    if s.consumer.Taken? {
      var c := |s.slots|;
      assert HeldOrPublished(s, s.deq);
      var slot := SlotAt(s, s.deq).(sequence := s.deq + c);
      var t := Next(s, PopRelease);
      OtherSlots(s, s.deq, slot);
      SequencesGrow(s, s.deq, slot);
      assert t.slots == WithSlot(s, s.deq, slot).slots;
      WholeLap(s.deq, c);
      forall pos: nat | t.deq <= pos < t.enq
        ensures HeldOrPublished(t, pos)
      {
        assert HeldOrPublished(s, pos);
      }
      forall q: nat
        ensures ProducerOk(t, q)
      {
        assert ProducerOk(s, q);
      }
      assert t.tickets[..t.deq] == s.tickets[..s.deq] + [s.tickets[s.deq]];
    }
  }

  lemma PopCheckKeeps<T>(s: Ring<T>)
    requires Inv(s)
    ensures Inv(Next(s, PopCheck))
  {
    var t := Next(s, PopCheck);
    if t != s {
      SampleVerdict(s, s.deq);
      assert HeldOrPublished(s, s.deq);
      assert forall k: nat :: SlotAt(t, k) == SlotAt(s, k);
      forall pos: nat | t.deq <= pos < t.enq
        ensures HeldOrPublished(t, pos)
      {
        assert HeldOrPublished(s, pos);
      }
      forall q: nat
        ensures ProducerOk(t, q)
      {
        assert ProducerOk(s, q);
      }
    }
  }

  lemma StepKeeps<T>(s: Ring<T>, a: Action<T>)
    requires Inv(s)
    ensures Inv(Next(s, a))
  {
    match a
    case Begin(p, v) =>
      if Next(s, a) != s { LocalMove(s, p, Start(v)); }
    case LoadPos(p) =>
      if Next(s, a) != s { LocalMove(s, p, Positioned(ProducerOf(s, p).value, s.enq)); }
    case LoadSequence(p) =>
      var pc := ProducerOf(s, p);
      assert ProducerOk(s, p);
      if pc.Positioned? {
        SampleVerdict(s, pc.pos);
        LocalMove(s, p, Sampled(pc.value, pc.pos, SlotAt(s, pc.pos).sequence, Full(s)));
      }
    case Decide(p, spurious) => DecideKeeps(s, p, spurious);
    case Construct(p) =>
      var pc := ProducerOf(s, p);
      if pc.Claimed? { ConstructKeeps(s, p); }
    case Publish(p) =>
      var pc := ProducerOf(s, p);
      if pc.Constructed? { PublishKeeps(s, p); }
    case PopCheck => PopCheckKeeps(s);
    case PopTake => TakeKeeps(s);
    case PopRelease => ReleaseKeeps(s);
  }

  lemma {:induction false} RunKeeps<T>(s: Ring<T>, run: seq<Action<T>>)
    requires Inv(s)
    ensures Inv(Exec(s, run))
    decreases |run|
  {
    if |run| > 0 {
      StepKeeps(s, run[0]);
      RunKeeps(Next(s, run[0]), run[1..]);
    }
  }

  // ---------------------------------------------------------------------------------------
  // What every run guarantees
  // ---------------------------------------------------------------------------------------

  /** In every interleaving: the consumer hands out exactly the first `deq` tickets in the order the
      compare-exchanges succeeded, elements are built only in dead storage, and the element about to be
      moved out and destroyed is alive and is the one its producer pushed. */
  lemma EveryRunIsFifo<T>(capacity: nat, run: seq<Action<T>>)
    requires capacity >= 2
    ensures var s := Exec(Init<T>(capacity), run);
            && |s.tickets| == s.enq == |s.winners|
            && s.deq <= s.enq <= s.deq + capacity
            && s.popped == s.tickets[..s.deq]
            && (s.consumer.Ready? ==> s.deq < s.enq && SlotAt(s, s.deq).cell == Some(s.tickets[s.deq]))
            && (s.consumer.Taken? ==> s.deq < s.enq && s.consumer.value == s.tickets[s.deq])
            && forall p: nat ::
                 match ProducerOf(s, p)
                 case Claimed(v, pos) =>
                   pos < s.enq && s.winners[pos] == p && s.tickets[pos] == v && SlotAt(s, pos).cell == None
                 case Constructed(v, pos) =>
                   pos < s.enq && s.winners[pos] == p && s.tickets[pos] == v && SlotAt(s, pos).cell == Some(v)
                 case Accepted(v, pos) => pos < s.enq && s.winners[pos] == p && s.tickets[pos] == v
                 case _ => true
  {
    InitInv<T>(capacity);
    RunKeeps(Init<T>(capacity), run);
    var s := Exec(Init<T>(capacity), run);
    TakeKeeps(s);
    forall p: nat
      ensures ProducerOk(s, p)
      ensures var pc := ProducerOf(s, p); pc.Claimed? || pc.Constructed? ==> HeldOrPublished(s, pc.pos)
    {
      assert ProducerOk(s, p);
    }
  }

  /** The verdicts of `TryPush` are exact although the sequence it compares may be stale: a refusal was read
      while every ticket was claimed and unreleased, a retry means another producer moved enqueue_pos_, and
      a compare-exchange that would win finds its slot free. */
  lemma VerdictsAreExact<T>(capacity: nat, run: seq<Action<T>>, p: nat)
    requires capacity >= 2
    ensures var s := Exec(Init<T>(capacity), run);
            match ProducerOf(s, p)
            case Rejected(_, fullThen) => fullThen
            case Positioned(_, pos) =>
              && pos <= s.enq
              && (SlotAt(s, pos).sequence < pos <==> pos == s.enq && Full(s))
            case Sampled(_, pos, seen, fullThen) =>
              && (seen < pos ==> fullThen)
              && (seen > pos ==> pos < s.enq)
              && (seen == pos == s.enq ==> !Full(s) && SlotAt(s, pos) == Slot(pos, None))
            case _ => true
  {
    InitInv<T>(capacity);
    RunKeeps(Init<T>(capacity), run);
    var s := Exec(Init<T>(capacity), run);
    assert ProducerOk(s, p);
    match ProducerOf(s, p)
    case Positioned(_, pos) => SampleVerdict(s, pos);
    case Sampled(_, pos, seen, _) =>
      if seen == pos == s.enq { WinOwnsFreeSlot(s, p); }
    case _ =>
  }

  /** Capacity 1 breaks the protocol: a published element and a free slot then carry the same number, so the next
      producer is told the slot is free and builds its element over one nobody has popped. */
  lemma CapacityOneLosesAnElement(p: nat, v: int, q: nat, w: int)
    requires p != q
    ensures var s := Exec(Init<int>(1), PushOf(p, v) + PushOf(q, w));
            s.tickets == [v, w] && s.popped == [] && s.slots == [Slot(2, Some(w))]
  {
    var s := Init<int>(1);
    OneSlotPush(s, p, v);
    OneSlotPush(Exec(s, PushOf(p, v)), q, w);
    ExecAppend(s, PushOf(p, v), PushOf(q, w));
  }

  function PushOf(p: nat, v: int): seq<Action<int>>
  {
    [Begin(p, v), LoadPos(p), LoadSequence(p), Decide(p, false), Construct(p), Publish(p)]
  }

  lemma OneSlotPush(s: Ring<int>, p: nat, v: int)
    requires |s.slots| == 1 && s.slots[0].sequence == s.enq && ProducerOf(s, p).Idle?
    ensures var t := Exec(s, PushOf(p, v));
            && t.slots == [Slot(s.enq + 1, Some(v))] && t.enq == s.enq + 1
            && t.tickets == s.tickets + [v] && t.popped == s.popped
            && forall q: nat :: q != p ==> ProducerOf(t, q) == ProducerOf(s, q)
  {
    var a, b := PushOf(p, v)[..4], PushOf(p, v)[4..];
    assert PushOf(p, v) == a + b;
    OneSlotClaim(s, p, v);
    OneSlotFill(Exec(s, a), p, v);
    ExecAppend(s, a, b);
  }

  lemma OneSlotClaim(s: Ring<int>, p: nat, v: int)
    requires |s.slots| == 1 && s.slots[0].sequence == s.enq && ProducerOf(s, p).Idle?
    ensures var t := Exec(s, PushOf(p, v)[..4]);
            && t.slots == s.slots && ProducerOf(t, p) == Claimed(v, s.enq) && t.enq == s.enq + 1
            && t.tickets == s.tickets + [v] && t.popped == s.popped
            && forall q: nat :: q != p ==> ProducerOf(t, q) == ProducerOf(s, q)
  {
    var a := PushOf(p, v)[..4];
    var s1 := WithProducer(s, p, Start(v));
    var s2 := WithProducer(s1, p, Positioned(v, s.enq));
    var s3 := WithProducer(s2, p, Sampled(v, s.enq, s.enq, Full(s)));
    OneSlotSample(s, p, v);
    Exec1(s3, a[3..]); Exec1(s2, a[2..]); Exec1(s1, a[1..]); Exec1(s, a);
    assert a[3..][1..] == [] && a[2..][1..] == a[3..] && a[1..][1..] == a[2..];
    assert Exec(s, a) == Next(s3, a[3]);
  }

  lemma OneSlotSample(s: Ring<int>, p: nat, v: int)
    requires |s.slots| == 1 && s.slots[0].sequence == s.enq && ProducerOf(s, p).Idle?
    ensures var s1 := WithProducer(s, p, Start(v));
            var s2 := WithProducer(s1, p, Positioned(v, s.enq));
            && Next(s, Begin(p, v)) == s1 && Next(s1, LoadPos(p)) == s2
            && Next(s2, LoadSequence(p)) == WithProducer(s2, p, Sampled(v, s.enq, s.enq, Full(s)))
  {
    assert At(s.enq, 1) == 0;
  }

  lemma OneSlotFill(s: Ring<int>, p: nat, v: int)
    requires |s.slots| == 1 && ProducerOf(s, p).Claimed? && ProducerOf(s, p).value == v
    ensures var t := Exec(s, PushOf(p, v)[4..]);
            && t.slots == [Slot(ProducerOf(s, p).pos + 1, Some(v))] && t.enq == s.enq
            && t.tickets == s.tickets && t.popped == s.popped
            && forall q: nat :: q != p ==> ProducerOf(t, q) == ProducerOf(s, q)
  {
    var b := PushOf(p, v)[4..];
    var s1 := Next(s, b[0]);
    assert At(ProducerOf(s, p).pos, 1) == 0;
    Exec1(s1, b[1..]); Exec1(s, b);
    assert b[1..][1..] == [];
    assert Exec(s, b) == Next(s1, b[1]);
  }

  lemma Exec1<T>(s: Ring<T>, run: seq<Action<T>>)
    requires |s.slots| > 0 && |run| > 0
    ensures Exec(s, run) == Exec(Next(s, run[0]), run[1..])
  {
  }

  lemma {:induction false} ExecAppend<T>(s: Ring<T>, a: seq<Action<T>>, b: seq<Action<T>>)
    requires |s.slots| > 0
    ensures Exec(s, a + b) == Exec(Exec(s, a), b)
    decreases |a|
  {
    if |a| == 0 {
      assert a + b == b;
    } else {
      assert (a + b)[1..] == a[1..] + b;
      ExecAppend(Next(s, a[0]), a[1..], b);
    }
  }

  // ---------------------------------------------------------------------------------------
  // Refinement: the ring is a bounded queue whose entries become visible one by one
  // ---------------------------------------------------------------------------------------

  datatype Entry<T> = Entry(value: T, published: bool)

  ghost function View<T>(s: Ring<T>): (q: seq<Entry<T>>)
    requires Cursors(s)
    ensures |q| == s.enq - s.deq
  {
    seq(s.enq - s.deq, i requires 0 <= i < s.enq - s.deq =>
      Entry(s.tickets[s.deq + i], SlotAt(s, s.deq + i).sequence == s.deq + i + 1))
  }

  /** What one step may do to the queue a user sees. */
  ghost predicate QueueStep<T>(before: seq<Entry<T>>, after: seq<Entry<T>>, capacity: nat)
  {
    || after == before
    || (|before| < capacity && |after| == |before| + 1 && before <= after && !after[|before|].published)
    || (exists i: nat :: i < |before| && !before[i].published && after == before[i := Entry(before[i].value, true)])
    || (|before| > 0 && before[0].published && after == before[1..])
  }

  lemma RingRefinesQueue<T>(s: Ring<T>, a: Action<T>)
    requires Inv(s)
    ensures Inv(Next(s, a)) && QueueStep(View(s), View(Next(s, a)), |s.slots|)
  {
    StepKeeps(s, a);
    match a
    case Decide(p, spurious) => DecideRefines(s, p, spurious);
    case Publish(p) => PublishRefines(s, p);
    case PopRelease => ReleaseRefines(s);
    case _ => SequencesOf(s, Next(s, a));
  }

  lemma DecideRefines<T>(s: Ring<T>, p: nat, spurious: bool)
    requires Inv(s) && Inv(Next(s, Decide(p, spurious)))
    ensures QueueStep(View(s), View(Next(s, Decide(p, spurious))), |s.slots|)
  {
    var t := Next(s, Decide(p, spurious));
    if t.enq == s.enq {
      SequencesOf(s, t);
    } else {
      WinOwnsFreeSlot(s, p);
      forall i | 0 <= i < |View(s)|
        ensures View(t)[i] == View(s)[i]
      {
        assert SlotAt(t, s.deq + i) == SlotAt(s, s.deq + i);
      }
      assert SlotAt(t, s.enq) == SlotAt(s, s.enq);
    }
  }

  lemma PublishRefines<T>(s: Ring<T>, p: nat)
    requires Inv(s) && Inv(Next(s, Publish(p)))
    ensures QueueStep(View(s), View(Next(s, Publish(p))), |s.slots|)
  {
    var t := Next(s, Publish(p));
    var pc := ProducerOf(s, p);
    if pc.Constructed? {
      assert ProducerOk(s, p);
      var slot := SlotAt(s, pc.pos).(sequence := pc.pos + 1);
      OtherSlots(s, pc.pos, slot);
      assert t.slots == WithSlot(s, pc.pos, slot).slots;
      var i := pc.pos - s.deq;
      forall k | 0 <= k < |View(s)|
        ensures View(t)[k] == if k == i then Entry(View(s)[i].value, true) else View(s)[k]
      {
        assert SlotAt(t, s.deq + k) == SlotAt(WithSlot(s, pc.pos, slot), s.deq + k);
      }
      assert !View(s)[i].published;
      assert View(t) == View(s)[i := Entry(View(s)[i].value, true)];
    } else {
      SequencesOf(s, t);
    }
  }

  lemma ReleaseRefines<T>(s: Ring<T>)
    requires Inv(s) && Inv(Next(s, PopRelease))
    ensures QueueStep(View(s), View(Next(s, PopRelease)), |s.slots|)
  {
    var t := Next(s, PopRelease);
    if s.consumer.Taken? {
      var slot := SlotAt(s, s.deq).(sequence := s.deq + |s.slots|);
      OtherSlots(s, s.deq, slot);
      assert t.slots == WithSlot(s, s.deq, slot).slots;
      forall k | 0 <= k < |View(t)|
        ensures View(t)[k] == View(s)[k + 1]
      {
        assert SlotAt(t, t.deq + k) == SlotAt(WithSlot(s, s.deq, slot), s.deq + (k + 1));
      }
      assert View(t) == View(s)[1..];
      assert View(s)[0].published;
    } else {
      SequencesOf(s, t);
    }
  }

  lemma SequencesOf<T>(s: Ring<T>, t: Ring<T>)
    requires Cursors(s) && Cursors(t) && s.enq == t.enq && s.deq == t.deq && s.tickets == t.tickets
    requires |s.slots| == |t.slots|
    requires forall i :: 0 <= i < |s.slots| ==> s.slots[i].sequence == t.slots[i].sequence
    ensures View(s) == View(t)
  {
    forall i | 0 <= i < |View(s)|
      ensures View(s)[i] == View(t)[i]
    {
      assert SlotAt(s, s.deq + i).sequence == SlotAt(t, s.deq + i).sequence;
    }
  }

  /** `Empty()` and the check of `TryPopOne` look at one sequence number; that number tells exactly whether the
      oldest entry is visible, and with no producer between its compare-exchange and its publish it tells
      whether the queue holds anything at all. */
  lemma EmptyIsExact<T>(s: Ring<T>)
    requires Inv(s)
    ensures SlotAt(s, s.deq).sequence >= s.deq + 1 <==> |View(s)| > 0 && View(s)[0].published
    ensures (forall p: nat :: !ProducerOf(s, p).Claimed? && !ProducerOf(s, p).Constructed?)
            ==> (SlotAt(s, s.deq).sequence < s.deq + 1 <==> s.deq == s.enq)
  {
    if s.deq < s.enq {
      assert HeldOrPublished(s, s.deq);
    } else {
      assert SlotAt(s, s.deq) == Slot(s.deq, None);
    }
  }

  // ---------------------------------------------------------------------------------------
  // kMask
  // ---------------------------------------------------------------------------------------

  function Pow2(k: nat): (r: nat)
    ensures r >= 1
  {
    if k == 0 then 1 else 2 * Pow2(k - 1)
  }

  /** Bitwise conjunction of naturals. */
  function BitAnd(a: nat, b: nat): nat
    decreases a
  {
    if a == 0 || b == 0 then 0
    else (if a % 2 == 1 && b % 2 == 1 then 1 else 0) + 2 * BitAnd(a / 2, b / 2)
  }

  /** For a power-of-two capacity, `pos & (capacity - 1)` is the remainder used in this model. */
  lemma {:induction false} MaskIsRemainder(pos: nat, k: nat)
    ensures BitAnd(pos, Pow2(k) - 1) == At(pos, Pow2(k))
    decreases k, pos
  {
    if k > 0 && pos > 0 {
      var half := Pow2(k - 1);
      MaskIsRemainder(pos / 2, k - 1);
      AndWithOddMask(pos, half);
      RemainderByHalves(pos, half);
    } else if pos == 0 {
      MultipleGap(Pow2(k), 0 / Pow2(k));
    }
  }

  lemma AndWithOddMask(pos: nat, half: nat)
    requires pos > 0 && half > 0
    ensures BitAnd(pos, 2 * half - 1) == pos % 2 + 2 * BitAnd(pos / 2, half - 1)
  {
    assert (2 * half - 1) / 2 == half - 1 && (2 * half - 1) % 2 == 1;
  }

  lemma RemainderByHalves(pos: nat, half: nat)
    requires half > 0
    ensures pos % (2 * half) == pos % 2 + 2 * ((pos / 2) % half)
  {
    var q := (pos / 2) / half;
    var r := pos % 2 + 2 * ((pos / 2) % half);
    assert pos == 2 * half * q + r by {
      assert pos / 2 == half * q + (pos / 2) % half;
      assert 2 * (half * q) == 2 * half * q;
    }
    var d := pos / (2 * half) - q;
    MultipleGap(2 * half, d);
    assert 2 * half * d == r - pos % (2 * half);
  }
}
