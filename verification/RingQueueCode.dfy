/**
  The ring queue's own code: cursors and a slot array updated in place.

  A method is the code of one thread.  Where another thread may run in between, the method takes that thread's
  actions as a parameter and lets them happen, so a contract here holds under every interference.
 */
module RingQueueCode {
  import opened Common
  import R = RingQueue

  /** The actions a producer `p` may see happening around it. */
  predicate NotBy<T>(p: nat, acts: seq<R.Action<T>>)
  {
    forall i :: 0 <= i < |acts| ==> !IsBy(p, acts[i])
  }

  predicate IsBy<T>(p: nat, a: R.Action<T>)
  {
    match a
    case Begin(q, _) => q == p
    case LoadPos(q) => q == p
    case LoadSequence(q) => q == p
    case Decide(q, _) => q == p
    case Construct(q) => q == p
    case Publish(q) => q == p
    case _ => false
  }

  predicate ByProducers<T>(acts: seq<R.Action<T>>)
  {
    forall i :: 0 <= i < |acts| ==> !acts[i].PopCheck? && !acts[i].PopTake? && !acts[i].PopRelease?
  }

  /** Among the tickets from number n on, producer `p` has won the one at `pos`, if given, and no other. */
  ghost predicate WonSince(winners: seq<nat>, n: nat, p: nat, pos: Option<nat>)
  {
    forall i :: n <= i < |winners| ==> (winners[i] == p <==> pos == Some(i))
  }

  /** The position of the ticket that the current call of a producer has won. */
  function Holding<T>(pc: R.Producer<T>): Option<nat>
  {
    if pc.Claimed? || pc.Constructed? || pc.Accepted? then Some(pc.pos) else None
  }

  lemma OtherStepKeeps<T>(s: R.Ring<T>, p: nat, a: R.Action<T>)
    requires |s.slots| > 0 && !IsBy(p, a)
    ensures var t := R.Next(s, a);
            && R.ProducerOf(t, p) == R.ProducerOf(s, p)
            && s.tickets <= t.tickets && s.winners <= t.winners && s.enq <= t.enq && s.deq <= t.deq
            && WonSince(t.winners, |s.winners|, p, None)
  {
  }

  /** Others cannot move producer `p`, and claimed tickets are never revoked. */
  lemma {:induction false} OthersKeep<T>(s: R.Ring<T>, p: nat, acts: seq<R.Action<T>>)
    requires R.Inv(s) && NotBy(p, acts)
    ensures var t := R.Exec(s, acts);
            && R.ProducerOf(t, p) == R.ProducerOf(s, p)
            && s.tickets <= t.tickets && s.winners <= t.winners && s.enq <= t.enq && s.deq <= t.deq
            && WonSince(t.winners, |s.winners|, p, None)
    decreases |acts|
  {
    if |acts| > 0 {
      R.StepKeeps(s, acts[0]);
      var t := R.Next(s, acts[0]);
      assert !IsBy(p, acts[0]);
      OtherStepKeeps(s, p, acts[0]);
      assert NotBy(p, acts[1..]) by {
        forall k | 0 <= k < |acts[1..]| ensures !IsBy(p, acts[1..][k]) { assert acts[1..][k] == acts[k + 1]; }
      }
      OthersKeep(t, p, acts[1..]);
    }
  }

  /** What `p` has won is not changed by others. */
  lemma OthersWinNot<T>(s: R.Ring<T>, n: nat, p: nat, acts: seq<R.Action<T>>)
    requires R.Inv(s) && NotBy(p, acts)
    requires n <= |s.winners| && WonSince(s.winners, n, p, Holding(R.ProducerOf(s, p)))
    ensures var t := R.Exec(s, acts);
            && R.Inv(t) && R.ProducerOf(t, p) == R.ProducerOf(s, p)
            && n <= |t.winners| && s.enq <= t.enq && WonSince(t.winners, n, p, Holding(R.ProducerOf(t, p)))
  {
    R.RunKeeps(s, acts);
    OthersKeep(s, p, acts);
    assert R.ProducerOk(s, p);
  }

  /** A producer's own step wins a ticket only in moving to `Claimed`. */
  lemma OwnStepWins<T>(s: R.Ring<T>, n: nat, p: nat, a: R.Action<T>)
    requires R.Inv(s) && IsBy(p, a) && n <= |s.winners|
    requires !a.Begin? && WonSince(s.winners, n, p, Holding(R.ProducerOf(s, p)))
    ensures var t := R.Next(s, a); WonSince(t.winners, n, p, Holding(R.ProducerOf(t, p)))
  {
  }

  /** Is between two calls of `TryPush`. */
  predicate Restful<T>(pc: R.Producer<T>) { pc.Idle? || pc.Accepted? || pc.Rejected? }

  /** Producers cannot move the consumer. */
  lemma {:induction false} ProducersKeep<T>(s: R.Ring<T>, acts: seq<R.Action<T>>)
    requires R.Inv(s) && ByProducers(acts)
    ensures var t := R.Exec(s, acts);
            t.consumer == s.consumer && t.deq == s.deq && t.popped == s.popped && s.tickets <= t.tickets
                && s.enq <= t.enq
    decreases |acts|
  {
    if |acts| > 0 {
      R.StepKeeps(s, acts[0]);
      assert ByProducers(acts[1..]) by {
        forall k | 0 <= k < |acts[1..]|
          ensures !acts[1..][k].PopCheck? && !acts[1..][k].PopTake? && !acts[1..][k].PopRelease?
        {
          assert acts[1..][k] == acts[k + 1];
        }
      }
      ProducersKeep(R.Next(s, acts[0]), acts[1..]);
    }
  }

  /** Every slot belongs to exactly one position of the current lap. */
  lemma LapCovers(deq: nat, i: nat, capacity: nat)
    requires i < capacity
    ensures var pos := if i >= R.At(deq, capacity) then deq + (i - R.At(deq, capacity))
                       else deq + capacity + i - R.At(deq, capacity);
            deq <= pos < deq + capacity && R.At(pos, capacity) == i
  {
    var r := R.At(deq, capacity);
    var pos := if i >= r then deq + (i - r) else deq + capacity + i - r;
    var q := if i >= r then deq / capacity else deq / capacity + 1;
    assert deq == capacity * (deq / capacity) + r;
    assert capacity * (deq / capacity + 1) == capacity * (deq / capacity) + capacity;
    assert pos == capacity * q + i;
    R.MultipleGap(capacity, pos / capacity - q);
    assert capacity * (pos / capacity - q) == i - pos % capacity;
  }

  lemma DrainedIsDead<T>(s: R.Ring<T>)
    requires R.Inv(s) && s.deq == s.enq
    ensures forall i :: 0 <= i < |s.slots| ==> s.slots[i].cell == None
  {
    forall i | 0 <= i < |s.slots|
      ensures s.slots[i].cell == None
    {
      LapCovers(s.deq, i, |s.slots|);
      var r := R.At(s.deq, |s.slots|);
      var pos := if i >= r then s.deq + (i - r) else s.deq + |s.slots| + i - r;
      assert R.SlotAt(s, pos) == R.Slot(pos, None);
    }
  }

  /** What one access of its own does to a producer, whatever happened just before it; `low` is a value
      enqueue_pos_ had earlier. */
  ghost predicate OwnMove<T>(a: R.Action<T>, before: R.Producer<T>, after: R.Producer<T>, low: nat)
  {
    match a
    case Begin(_, v) => Restful(before) ==> after == R.Start(v)
    case LoadPos(_) => before.Start? ==> after.Positioned? && after.value == before.value && low <= after.pos
    case LoadSequence(_) => before.Positioned? ==>
        after.Sampled? && after.value == before.value && after.pos == before.pos
    case Decide(_, _) =>
      before.Sampled? ==>
        if before.seen == before.pos then
          || after == R.Claimed(before.value, before.pos)
          || (after.Positioned? && after.value == before.value && low <= after.pos)
        else if before.seen < before.pos then after == R.Rejected(before.value, before.fullThen)
        else after == R.Start(before.value)
    case Construct(_) => before.Claimed? ==> after == R.Constructed(before.value, before.pos)
    case Publish(_) => before.Constructed? ==> after == R.Accepted(before.value, before.pos)
    case _ => true
  }

  class MpscRingQueue<T> {
    const slots: array<R.Slot<T>>
    var enqueuePos: nat
    var dequeuePos: nat

    /** The locals of the threads that are inside `TryPush` and `TryPopOne`. */
    var threads: map<nat, R.Producer<T>>
    var consumer: R.Consumer<T>

    ghost var tickets: seq<T>
    ghost var winners: seq<nat>
    ghost var popped: seq<T>

    ghost function State(): R.Ring<T>
      reads this, slots
    {
      R.Ring(enqueuePos, dequeuePos, slots[..], threads, consumer, tickets, winners, popped)
    }

    ghost predicate Valid()
      reads this, slots
    {
      R.Inv(State())
    }

    constructor (capacity: nat)
      requires capacity >= 2
      ensures Valid() && fresh(slots)
      ensures State() == R.Init<T>(capacity)
    {
      slots := new R.Slot<T>[capacity](_ => R.Slot(0, None));
      enqueuePos, dequeuePos, threads, consumer := 0, 0, map[], R.Resting;
      tickets, winners, popped := [], [], [];
      new;
      for i := 0 to capacity
        invariant forall k :: 0 <= k < i ==> slots[k] == R.Slot(k, None)
        invariant forall k :: i <= k < capacity ==> slots[k] == R.Slot(0, None)
        invariant enqueuePos == 0 && dequeuePos == 0 && threads == map[] && consumer == R.Resting
        invariant tickets == [] && winners == [] && popped == []
      {
        slots[i] := R.Slot(i, None);
      }
      R.InitInv<T>(capacity);
      assert slots[..] == R.Init<T>(capacity).slots;
    }

    /** One atomic access by one thread. */
    method Perform(a: R.Action<T>)
      requires Valid()
      modifies this, slots
      ensures Valid() && State() == R.Next(old(State()), a)
    {
      R.StepKeeps(State(), a);
      match a {
        case Begin(_, _) => Local(a);
        case LoadPos(_) => Local(a);
        case LoadSequence(_) => Local(a);
        case Decide(p, spurious) => Settle(p, spurious);
        case Construct(p) =>
          if p in threads && threads[p].Claimed? {
            var pc := threads[p];
            var i := R.At(pc.pos, slots.Length);
            slots[i] := slots[i].(cell := Some(pc.value));
            threads := threads[p := R.Constructed(pc.value, pc.pos)];
          }
        case Publish(p) =>
          if p in threads && threads[p].Constructed? {
            var pc := threads[p];
            var i := R.At(pc.pos, slots.Length);
            slots[i] := slots[i].(sequence := pc.pos + 1);
            threads := threads[p := R.Accepted(pc.value, pc.pos)];
          }
        case _ => Consume(a);
      }
    }

    /** The accesses of a producer that write no shared memory. */
    method Local(a: R.Action<T>)
      requires Valid() && (a.Begin? || a.LoadPos? || a.LoadSequence?)
      modifies this
      ensures State() == R.Next(old(State()), a)
    {
      var pc := if a.p in threads then threads[a.p] else R.Idle;
      if a.Begin? && (pc.Idle? || pc.Accepted? || pc.Rejected?) {
        threads := threads[a.p := R.Start(a.value)];
      } else if a.LoadPos? && pc.Start? {
        threads := threads[a.p := R.Positioned(pc.value, enqueuePos)];
      } else if a.LoadSequence? && pc.Positioned? {
        var seen := slots[R.At(pc.pos, slots.Length)].sequence;
        threads := threads[a.p := R.Sampled(pc.value, pc.pos, seen, enqueuePos == dequeuePos + slots.Length)];
      }
    }

    /** The branch on `diff`, with the compare-exchange in its first arm. */
    method Settle(p: nat, spurious: bool)
      requires Valid()
      modifies this
      ensures State() == R.Next(old(State()), R.Decide(p, spurious))
    {
      if p in threads && threads[p].Sampled? {
        var pc := threads[p];
        if pc.seen == pc.pos {
          if enqueuePos == pc.pos && !spurious {
            enqueuePos := enqueuePos + 1;
            threads := threads[p := R.Claimed(pc.value, pc.pos)];
            tickets, winners := tickets + [pc.value], winners + [p];
          } else {
            threads := threads[p := R.Positioned(pc.value, enqueuePos)];
          }
        } else if pc.seen < pc.pos {
          threads := threads[p := R.Rejected(pc.value, pc.fullThen)];
        } else {
          threads := threads[p := R.Start(pc.value)];
        }
      }
    }

    method Consume(a: R.Action<T>)
      requires Valid() && (a.PopCheck? || a.PopTake? || a.PopRelease?)
      modifies this, slots
      ensures State() == R.Next(old(State()), a)
    {
      var i := R.At(dequeuePos, slots.Length);
      if a.PopCheck? && consumer.Resting? {
        if slots[i].sequence >= dequeuePos + 1 { consumer := R.Ready; }
      } else if a.PopTake? && consumer.Ready? {
        R.TakeKeeps(State());
        consumer := R.Taken(slots[i].cell.value);
        slots[i] := slots[i].(cell := None);
      } else if a.PopRelease? && consumer.Taken? {
        slots[i] := slots[i].(sequence := dequeuePos + slots.Length);
        popped := popped + [consumer.value];
        consumer := R.Resting;
        dequeuePos := dequeuePos + 1;
      }
    }

    /** Other threads run for a while. */
    method Interfere(acts: seq<R.Action<T>>)
      requires Valid()
      modifies this, slots
      ensures Valid() && State() == R.Exec(old(State()), acts)
    {
      for i := 0 to |acts|
        invariant Valid()
        invariant R.Exec(State(), acts[i..]) == R.Exec(old(State()), acts)
      {
        R.Exec1(State(), acts[i..]);
        assert acts[i..][1..] == acts[i + 1..];
        Perform(acts[i]);
      }
    }

    /** `run` led here from `from`; since then producer `p` has won just the ticket it holds. */
    ghost predicate Reached(from: R.Ring<T>, run: seq<R.Action<T>>, p: nat)
      reads this, slots
    {
      && Valid() && |from.slots| > 0 && R.Exec(from, run) == State()
      && |from.winners| <= |winners| && WonSince(winners, |from.winners|, p, Holding(R.ProducerOf(State(), p)))
    }

    /** `Perform` by producer `p` itself, after some interference by others. */
    method StepAfter(p: nat, others: seq<R.Action<T>>, a: R.Action<T>, ghost from: R.Ring<T>,
                     ghost run: seq<R.Action<T>>)
      returns (ghost longer: seq<R.Action<T>>)
      requires Reached(from, run, p) && NotBy(p, others) && IsBy(p, a) && !a.Begin?
      modifies this, slots
      ensures Reached(from, longer, p) && longer == run + others + [a]
      ensures OwnMove(a, R.ProducerOf(old(State()), p), R.ProducerOf(State(), p), old(enqueuePos))
      ensures old(enqueuePos) <= enqueuePos
    {
      OthersWinNot(State(), |from.winners|, p, others);
      R.ExecAppend(from, run, others);
      R.ExecAppend(from, run + others, [a]);
      R.Exec1(R.Exec(from, run + others), [a]);
      Interfere(others);
      OwnStepWins(State(), |from.winners|, p, a);
      Perform(a);
      longer := run + others + [a];
    }

    /** The winner of a compare-exchange fills its slot and publishes it. */
    method Fill(p: nat, first: seq<R.Action<T>>, second: seq<R.Action<T>>, ghost from: R.Ring<T>,
                ghost run: seq<R.Action<T>>)
      returns (ghost longer: seq<R.Action<T>>)
      requires Reached(from, run, p) && NotBy(p, first) && NotBy(p, second)
      requires R.ProducerOf(State(), p).Claimed?
      modifies this, slots
      ensures Reached(from, longer, p)
      ensures var pc := R.ProducerOf(old(State()), p);
              && R.ProducerOf(State(), p) == R.Accepted(pc.value, pc.pos)
              && pc.pos < |tickets| == |winners| && tickets[pc.pos] == pc.value && winners[pc.pos] == p
    {
      longer := StepAfter(p, first, R.Construct(p), from, run);
      longer := StepAfter(p, second, R.Publish(p), from, longer);
      assert R.ProducerOk(State(), p);
    }

    /** Read the slot's sequence, then act on it. */
    method Attempt(p: nat, first: seq<R.Action<T>>, second: seq<R.Action<T>>, spurious: bool,
                   ghost from: R.Ring<T>, ghost run: seq<R.Action<T>>)
      returns (ghost longer: seq<R.Action<T>>)
      requires Reached(from, run, p) && NotBy(p, first) && NotBy(p, second)
      requires R.ProducerOf(State(), p).Positioned?
      modifies this, slots
      ensures Reached(from, longer, p) && old(enqueuePos) <= enqueuePos
      ensures var was := R.ProducerOf(old(State()), p); var pc := R.ProducerOf(State(), p);
              && p in threads && (pc.Claimed? || pc.Positioned? || pc.Rejected? || pc.Start?)
              && pc.value == was.value
              && (pc.Claimed? ==> pc.pos == was.pos)
              && (pc.Positioned? ==> old(enqueuePos) <= pc.pos)
              && (pc.Rejected? ==> pc.fullThen)
    {
      longer := StepAfter(p, first, R.LoadSequence(p), from, run);
      longer := StepAfter(p, second, R.Decide(p, spurious), from, longer);
      assert R.ProducerOk(State(), p);
    }

    /** A call begins: it remembers its value and loads enqueue_pos_. */
    method Enter(p: nat, value: T, others: seq<R.Action<T>>, ghost from: R.Ring<T>)
      returns (ghost run: seq<R.Action<T>>)
      requires Valid() && NotBy(p, others) && from == State()
      requires Restful(R.ProducerOf(State(), p))
      modifies this, slots
      ensures Reached(from, run, p) && old(enqueuePos) <= enqueuePos
      ensures var pc := R.ProducerOf(State(), p); pc.Positioned? && pc.value == value && old(enqueuePos) <= pc.pos
    {
      run := [R.Begin(p, value)];
      R.Exec1(from, run);
      Perform(R.Begin(p, value));
      run := StepAfter(p, others, R.LoadPos(p), from, run);
    }

    /** `TryPush` of producer `p`.  `schedule[k]` is what the other threads do before `p`'s k-th access and
        `spurious(k)` says whether a compare-exchange issued there fails for no reason; `None` means the schedule
        ended while the call was still running. */
    method TryPush(p: nat, value: T, schedule: seq<seq<R.Action<T>>>, spurious: nat -> bool)
      returns (r: Option<bool>, ghost run: seq<R.Action<T>>)
      requires Valid()
      requires Restful(R.ProducerOf(State(), p))
      requires forall k :: 0 <= k < |schedule| ==> NotBy(p, schedule[k])
      modifies this, slots
      ensures Valid() && State() == R.Exec(old(State()), run)
      ensures r == Some(true) ==>
                && R.ProducerOf(State(), p).Accepted?
                && var pos := R.ProducerOf(State(), p).pos;
                   && old(enqueuePos) <= pos < |tickets| == |winners| && tickets[pos] == value
                   && WonSince(winners, |old(winners)|, p, Some(pos))
      ensures r == Some(false) ==>
                R.ProducerOf(State(), p) == R.Rejected(value, true) && WonSince(winners, |old(winners)|, p, None)
    {
      ghost var from := State();
      r, run := None, [];
      if |schedule| == 0 { return; }
      run := Enter(p, value, schedule[0], from);
      var k := 1;
      while k + 4 <= |schedule|
        invariant Reached(from, run, p)
        invariant R.ProducerOf(State(), p).Positioned? && R.ProducerOf(State(), p).value == value
        invariant old(enqueuePos) <= R.ProducerOf(State(), p).pos && old(enqueuePos) <= enqueuePos
        decreases |schedule| - k
      {
        run := Attempt(p, schedule[k], schedule[k + 1], spurious(k), from, run);
        match threads[p]
        case Claimed(_, _) =>
          run := Fill(p, schedule[k + 2], schedule[k + 3], from, run);
          return Some(true), run;
        case Rejected(_, _) =>
          return Some(false), run;
        case Start(_) =>
          run := StepAfter(p, schedule[k + 2], R.LoadPos(p), from, run);
          k := k + 3;
        case Positioned(_, _) =>
          k := k + 2;
      }
    }

    /** `Empty()`: exactly whether the oldest ticket has not been published. */
    method Empty() returns (r: bool)
      requires Valid()
      ensures r <==> !(|R.View(State())| > 0 && R.View(State())[0].published)
    {
      r := slots[R.At(dequeuePos, slots.Length)].sequence < dequeuePos + 1;
      R.EmptyIsExact(State());
    }

    /** `TryPopOne`; the producers may act between the check and the move, and between the move and the release. */
    method TryPopOne(first: seq<R.Action<T>>, second: seq<R.Action<T>>) returns (out: Option<T>)
      requires Valid() && consumer.Resting? && ByProducers(first) && ByProducers(second)
      modifies this, slots
      ensures Valid() && consumer.Resting? && old(tickets) <= tickets
      ensures out.Some? <==> |R.View(old(State()))| > 0 && R.View(old(State()))[0].published
      ensures out.None? ==> State() == old(State())
      ensures out.Some? ==>
                && old(dequeuePos) < |old(tickets)| && out.value == old(tickets)[old(dequeuePos)]
                && dequeuePos == old(dequeuePos) + 1 && popped == old(popped) + [out.value]
    {
      R.EmptyIsExact(State());
      Perform(R.PopCheck);
      if consumer.Resting? { return None; }
      var v := MoveOut(first);
      Release(second);
      return Some(v);
    }

    /** The consumer moves the head element out and destroys what is left of it. */
    method MoveOut(others: seq<R.Action<T>>) returns (v: T)
      requires Valid() && consumer.Ready? && ByProducers(others)
      modifies this, slots
      ensures Valid() && consumer == R.Taken(v) && old(tickets) <= tickets
      ensures old(dequeuePos) < |old(tickets)| && v == old(tickets)[old(dequeuePos)]
      ensures dequeuePos == old(dequeuePos) && popped == old(popped)
    {
      ProducersKeep(State(), others);
      Interfere(others);
      R.TakeKeeps(State());
      Perform(R.PopTake);
      v := consumer.value;
    }

    /** The consumer hands the slot to the next lap and advances. */
    method Release(others: seq<R.Action<T>>)
      requires Valid() && consumer.Taken? && ByProducers(others)
      modifies this, slots
      ensures Valid() && consumer.Resting? && old(tickets) <= tickets
      ensures dequeuePos == old(dequeuePos) + 1 && popped == old(popped) + [old(consumer).value]
    {
      ProducersKeep(State(), others);
      Interfere(others);
      Perform(R.PopRelease);
    }

    /** `PopBatch`: fills `out` from the front with the next tickets, in order, and stops early only at a ticket
        that is not published yet. */
    method PopBatch(out: array<T>, between: seq<seq<R.Action<T>>>) returns (count: nat)
      requires Valid() && consumer.Resting? && out as object != slots as object
      requires |between| >= 2 * out.Length && forall k :: 0 <= k < |between| ==> ByProducers(between[k])
      modifies this, slots, out
      ensures Valid() && consumer.Resting? && old(tickets) <= tickets
      ensures count <= out.Length && dequeuePos == old(dequeuePos) + count <= |tickets|
      ensures out[..count] == tickets[old(dequeuePos)..dequeuePos]
      ensures out[count..] == old(out[..])[count..]
      ensures count < out.Length ==> !(|R.View(State())| > 0 && R.View(State())[0].published)
    {
      count := 0;
      while count < out.Length
        invariant count <= out.Length && Valid() && consumer.Resting? && old(tickets) <= tickets
        invariant dequeuePos == old(dequeuePos) + count <= |tickets|
        invariant out[..count] == tickets[old(dequeuePos)..dequeuePos]
        invariant out[count..] == old(out[..])[count..]
      {
        label before:
        var v := TryPopOne(between[2 * count], between[2 * count + 1]);
        if v.None? { break; }
        assert tickets[..dequeuePos - 1] == old@before(tickets)[..dequeuePos - 1];
        out[count] := v.value;
        count := count + 1;
      }
    }

    /** `DrainAll`, run by the destructor when no producer is inside `TryPush`: every remaining element is destroyed
        once, and afterwards no storage is alive. */
    method DrainAll()
      requires Valid() && consumer.Resting?
      requires forall p: nat :: !R.ProducerOf(State(), p).Claimed? && !R.ProducerOf(State(), p).Constructed?
      modifies this, slots
      ensures Valid() && dequeuePos == enqueuePos == old(enqueuePos)
      ensures popped == old(tickets)
      ensures forall i :: 0 <= i < slots.Length ==> slots[i].cell == None
    {
      ghost var from := State();
      while true
        invariant Valid() && consumer.Resting? && dequeuePos <= enqueuePos == from.enq
        invariant threads == from.producers && tickets == from.tickets
        decreases enqueuePos - dequeuePos
      {
        var i := R.At(dequeuePos, slots.Length);
        R.EmptyIsExact(State());
        if slots[i].sequence < dequeuePos + 1 { break; }
        DestroyHead();
      }
      assert forall p: nat :: R.ProducerOf(State(), p) == R.ProducerOf(from, p);
      DrainedIsDead(State());
    }

    /** One round of `DrainAll`: destroy the head element and free its slot. */
    method DestroyHead()
      requires Valid() && consumer.Resting? && slots[R.At(dequeuePos, slots.Length)].sequence >= dequeuePos + 1
      modifies this, slots
      ensures Valid() && consumer.Resting? && dequeuePos == old(dequeuePos) + 1 <= enqueuePos == old(enqueuePos)
      ensures threads == old(threads) && tickets == old(tickets)
    {
      Perform(R.PopCheck);
      R.TakeKeeps(State());
      Perform(R.PopTake);
      Perform(R.PopRelease);
    }
  }
}
