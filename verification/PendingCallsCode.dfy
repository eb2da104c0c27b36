/** The pending-call table as an object: each method is the locked section of the operation it is named after and
    returns the waiters that the caller wakes once the lock is released.  Besides refining its operation of
    `PendingCalls`, each says what that means for its caller. */
module PendingCallsCode {
  import opened Common
  import opened PendingCalls

  class PendingTable<R> {
    var slots: map<string, Slot<R>>
    var nextSerial: nat

    /** The outbox and the histories; its other components are not used. */
    ghost var rest: Pending<R>

    ghost function View(): Pending<R>
      reads this
    {
      rest.(table := slots, nextSerial := nextSerial)
    }

    ghost predicate Valid()
      reads this
    {
      Inv(View())
    }

    /** Nothing decided or delivered is undone, nobody who waits is lost, and only the slot of `id` may change. */
    twostate predicate Only(id: string)
      reads this
    {
      && Later(old(View()), View()) && Followed(old(View()), View())
      && slots - {id} == old(slots) - {id}
    }

    constructor ()
      ensures Valid() && View() == Init<R>()
    {
      slots, nextSerial, rest := map[], 0, Init<R>();
    }

    method AddCall(id: string) returns (ok: bool)
      requires Valid()
      modifies this
      ensures Valid() && (View(), ok) == Add(old(View()), id)
    {
      AddKeeps(View(), id);
      if id == "" || id in slots { return false; }
      slots := slots[id := FreshSlot(nextSerial)];
      nextSerial := nextSerial + 1;
      return true;
    }

    /** Of the callers that try to bind to a slot one succeeds.  Its promise is set at once with the slot's recorded
        outcome if there is one, and otherwise waits in the slot and times out from its deadline on. */
    method BindPromise(id: string, w: nat, deadline: nat) returns (ok: bool)
      requires Valid() && Unused(View(), w)
      modifies this
      ensures Valid() && Only(id)
      ensures (View(), ok) == BindAsync(old(View()), id, w, deadline)
      ensures ok <==> id in old(slots) && !old(slots)[id].asyncBound && !old(slots)[id].coroutineBound
      ensures !ok ==> View() == old(View())
      ensures ok && old(slots)[id].serial in old(View()).outcomes ==>
                var n := old(slots)[id].serial;
                id !in slots && View().delivered == old(View()).delivered + [Delivery(w, n, old(View()).outcomes[n])]
      ensures ok && old(slots)[id].serial !in old(View()).outcomes ==>
                && id in slots && Holds(slots[id], w) && slots[id].asyncBound
                && forall now: nat :: TimesOut(slots[id], now) <==> now >= deadline
    {
      BindAsyncKeeps(View(), id, w, deadline);
      NextLater(View(), DoBindAsync(id, w, deadline));
      BindFollowed(View(), id, w, deadline);
      assert id in slots ==> SlotOk(slots[id], rest.outcomes);
      if id !in slots { return false; }
      var slot := slots[id];
      if slot.asyncBound || slot.coroutineBound { return false; }
      if slot.done {
        if slot.result.Some? {
          rest := rest.(delivered := rest.delivered + [Delivery(w, slot.serial, slot.result.value)],
              gone := rest.gone + {w});
        }
        slots := slots - {id};
        return true;
      }
      slots := slots[id := slot.(promise := Some(w), asyncBound := true, deadline := deadline)];
      return true;
    }

    /** The coroutine waits in the slot exactly if it is told so; told that the slot is done, it finds the outcome
        there. */
    method BindHandle(id: string, w: nat, deadline: nat) returns (status: BindStatus)
      requires Valid() && Unused(View(), w)
      modifies this
      ensures Valid() && Only(id)
      ensures (View(), status) == BindCoroutine(old(View()), id, w, deadline)
      ensures status == Bound <==> id in slots && Holds(slots[id], w)
      ensures status == Bound ==> !slots[id].done && forall now: nat :: TimesOut(slots[id], now) <==> now >= deadline
      ensures status != Bound ==> View() == old(View())
      ensures status == AlreadyDone ==>
                var n := slots[id].serial; n in View().outcomes && TryPop(View(), id).1 == Some(View().outcomes[n])
    {
      BindCoroutineKeeps(View(), id, w, deadline);
      NextLater(View(), DoBindCoroutine(id, w, deadline));
      BindFollowed(View(), id, w, deadline);
      assert id in slots ==> SlotOk(slots[id], rest.outcomes) && !Holds(slots[id], w);
      if id !in slots { return NotFound; }
      var slot := slots[id];
      if slot.coroutineBound || slot.asyncBound { return AlreadyBound; }
      if slot.done { return AlreadyDone; }
      slots := slots[id := slot.(handle := Some(w), coroutineBound := true, deadline := deadline)];
      return Bound;
    }

    /** Finish one slot and take its waiters. */
    method SettleSlot(id: string, r: R) returns (waiters: seq<Delivery<R>>)
      requires id in slots
      modifies this`slots, this`rest
      ensures View() == Settle(old(View()), id, r) && View().outbox == old(View()).outbox + waiters
      ensures waiters == Envelopes(old(slots)[id], Verdict(old(slots)[id], r))
    {
      var slot := slots[id];
      var verdict := Verdict(slot, r);
      waiters := Envelopes(slot, verdict);
      slots := slots[id := Settled(slot, r)];
      rest := rest.(outbox := rest.outbox + waiters, outcomes := rest.outcomes[slot.serial := verdict],
                    gone := rest.gone + Waiters(slot));
    }

    /** The first outcome wins: r becomes the outcome of a slot that had none, at most one waiter comes out, to be woken
        with r, and nobody is left waiting; a slot that had an outcome, or no slot, changes nothing and wakes nobody. */
    method CompleteCall(id: string, r: R) returns (ok: bool, waiters: seq<Delivery<R>>)
      requires Valid()
      modifies this
      ensures Valid() && Only(id)
      ensures (View(), ok) == Complete(old(View()), id, r) && View().outbox == old(View()).outbox + waiters
      ensures ok <==> id in old(slots) && old(slots)[id].serial !in old(View()).outcomes
      ensures ok ==> old(slots)[id].serial in View().outcomes && View().outcomes[old(slots)[id].serial] == r
      ensures |waiters| <= 1 && Named(waiters) == if ok then Waiters(old(slots)[id]) else {}
      ensures |waiters| == 1 ==> waiters[0].result == r && waiters[0].serial == old(slots)[id].serial
      ensures !ok ==> View() == old(View())
      ensures ok ==> if old(slots)[id].promise.Some? then id !in slots
              else id in slots && slots[id].done && Waiters(slots[id]) == {}
    {
      Completes(View(), id, r);
      if id !in slots || slots[id].done { return false, []; }
      var async := slots[id].promise.Some?;
      OnlyOne(slots[id], rest.outcomes, r);
      waiters := SettleSlot(id, r);
      if async { slots := slots - {id}; }
      ok := true;
    }

    /** A result comes out at most once: it is the recorded outcome of the slot, which goes, with nobody waiting in
        it. */
    method PopResult(id: string) returns (result: Option<R>)
      requires Valid()
      modifies this
      ensures Valid() && Only(id)
      ensures (View(), result) == TryPop(old(View()), id)
      ensures result.Some? <==> id in old(slots) && old(slots)[id].serial in old(View()).outcomes
      ensures result.Some? ==>
                && id !in slots && Waiters(old(slots)[id]) == {}
                   && result.value == View().outcomes[old(slots)[id].serial]
      ensures result.None? ==> View() == old(View())
    {
      EraseKeeps(View(), id);
      PopFollowed(View(), id);
      assert id in slots ==> SlotOk(slots[id], rest.outcomes);
      if id !in slots || !slots[id].done { return None; }
      result := slots[id].result;
      slots := slots - {id};
    }

    /** The slot goes; whoever waited in it is dropped and will not be woken. */
    method RemoveCall(id: string)
      requires Valid()
      modifies this
      ensures Valid() && Only(id) && id !in slots && View() == Remove(old(View()), id)
      ensures View().outbox == old(View()).outbox && View().delivered == old(View()).delivered
      ensures View().dropped - old(View()).dropped == if id in old(slots) then Waiters(old(slots)[id]) else {}
    {
      Removes(View(), id);
      Detach(id);
    }

    method Detach(id: string)
      modifies this
      ensures View() == Remove(old(View()), id)
    {
      if id in slots {
        rest := rest.(gone := rest.gone + Waiters(slots[id]), dropped := rest.dropped + Waiters(slots[id]));
        slots := slots - {id};
      }
    }

    /** The loop of `FailAll`, and with a time that of `FailTimedOut`; `ids` is the order in which the map was
        walked. */
    method FailCalls(now: Option<nat>, r: R) returns (waiters: seq<Delivery<R>>, ghost ids: seq<string>)
      requires Valid()
      modifies this
      ensures Valid() && Later(old(View()), View()) && Followed(old(View()), View())
      ensures View() == FailEach(old(View()), ids, now, r) && View().outbox == old(View()).outbox + waiters
      ensures forall id :: id in old(slots) ==> id in ids && id in slots
      ensures forall id :: id in old(slots) ==>
                if now.Some? && !Due(old(slots)[id], now.value) then slots[id] == old(slots)[id]
                else if old(slots)[id].done then slots[id].done && slots[id].result == old(slots)[id].result
                else slots[id].done && slots[id].result == Some(r) && Waiters(slots[id]) == {}
      ensures now.Some? ==> forall id :: id in old(slots) && Due(old(slots)[id], now.value) ==>
                FailedWith(old(slots)[id], slots[id], waiters, r)
    {
      ghost var before := View();
      waiters, ids := FailEverySlot(now, r);
      FailsWell(before, ids, now, r);
      SlotsFailed(before, ids, now, r, waiters);
    }

    method FailEverySlot(now: Option<nat>, r: R) returns (waiters: seq<Delivery<R>>, ghost ids: seq<string>)
      modifies this
      ensures View() == FailEach(old(View()), ids, now, r) && View().outbox == old(View()).outbox + waiters
      ensures forall id :: id in old(slots) ==> id in ids
    {
      waiters, ids := [], [];
      var todo := slots.Keys;
      while todo != {}
        invariant View() == FailEach(old(View()), ids, now, r) && View().outbox == old(View()).outbox + waiters
        invariant forall id :: id in old(slots) ==> id in ids || id in todo
        decreases |todo|
      {
        var id := Pick(todo);
        todo := todo - {id};
        FailEachSnoc(old(View()), ids, id, now, r);
        var more := FailSlot(id, now, r);
        ids, waiters := ids + [id], waiters + more;
      }
    }

    method FailSlot(id: string, now: Option<nat>, r: R) returns (waiters: seq<Delivery<R>>)
      modifies this`slots, this`rest
      ensures View() == FailOne(old(View()), id, now, r) && View().outbox == old(View()).outbox + waiters
    {
      waiters := [];
      if id in slots && (now.None? || TimesOut(slots[id], now.value)) {
        waiters := SettleSlot(id, r);
      }
    }
  }

  lemma FailEachSnoc<R>(p: Pending<R>, ids: seq<string>, id: string, now: Option<nat>, r: R)
    ensures FailEach(p, ids + [id], now, r) == FailOne(FailEach(p, ids, now, r), id, now, r)
  {
    assert (ids + [id])[..|ids|] == ids;
  }

  lemma FailsWell<R>(p: Pending<R>, ids: seq<string>, now: Option<nat>, r: R)
    requires Inv(p)
    ensures var q := FailEach(p, ids, now, r); Inv(q) && Later(p, q) && Followed(p, q)
  {
    FailEachKeeps(p, ids, now, r);
    FailEachLater(p, ids, now, r);
    FailEachFollowed(p, ids, now, r);
  }

  lemma SlotsFailed<R>(p: Pending<R>, ids: seq<string>, now: Option<nat>, r: R, waiters: seq<Delivery<R>>)
    requires Inv(p) && forall id :: id in p.table ==> id in ids
    requires FailEach(p, ids, now, r).outbox == p.outbox + waiters
    ensures var q := FailEach(p, ids, now, r);
            forall id :: id in p.table ==>
              && id in q.table
              && (if now.Some? && !Due(p.table[id], now.value) then q.table[id] == p.table[id]
                  else if p.table[id].done then q.table[id].done && q.table[id].result == p.table[id].result
                  else q.table[id].done && q.table[id].result == Some(r) && Waiters(q.table[id]) == {})
              && (now.Some? && Due(p.table[id], now.value) ==> FailedWith(p.table[id], q.table[id], waiters, r))
  {
    var q := FailEach(p, ids, now, r);
    FailEachKeys(p, ids, now, r);
    assert q.outbox[|p.outbox|..] == waiters;
    forall id | id in p.table
      ensures (if now.Some? && !Due(p.table[id], now.value) then q.table[id] == p.table[id]
               else if p.table[id].done then q.table[id].done && q.table[id].result == p.table[id].result
               else q.table[id].done && q.table[id].result == Some(r) && Waiters(q.table[id]) == {})
      ensures now.Some? && Due(p.table[id], now.value) ==> FailedWith(p.table[id], q.table[id], waiters, r)
    {
      if now.Some? { FailTimedOutExactly(p, ids, now.value, r, id); } else { FailedForAll(p, ids, r, id); }
    }
  }

  lemma FailedForAll<R>(p: Pending<R>, ids: seq<string>, r: R, id: string)
    requires Inv(p) && id in p.table && id in ids
    ensures var q := FailEach(p, ids, None, r);
            && id in q.table && q.table[id].done
            && q.table[id].result == (if p.table[id].done then p.table[id].result else Some(r))
            && Waiters(q.table[id]) == {}
  {
    assert SlotOk(p.table[id], p.outcomes);
    FailAllClears(p, ids, r, id);
  }

  lemma Completes<R>(p: Pending<R>, id: string, r: R)
    requires Inv(p)
    ensures id in p.table ==> SlotOk(p.table[id], p.outcomes)
    ensures var (q, ok) := Complete(p, id, r);
            && Inv(q) && Later(p, q) && Followed(p, q) && q.table - {id} == p.table - {id}
            && (ok ==> p.table[id].serial in q.outcomes && q.outcomes[p.table[id].serial] == r)
  {
    CompleteKeeps(p, id, r);
    CompleteLater(p, id, r);
    CompleteFollowed(p, id, r);
    if id in p.table {
      assert SlotOk(p.table[id], p.outcomes);
      CompletesOnlyThis(p, id, r);
    }
  }

  lemma CompletesOnlyThis<R>(p: Pending<R>, id: string, r: R)
    requires id in p.table && SlotOk(p.table[id], p.outcomes)
    ensures var (q, ok) := Complete(p, id, r);
            && q.table - {id} == p.table - {id}
            && (ok ==> p.table[id].serial in q.outcomes && q.outcomes[p.table[id].serial] == r)
  {
  }

  lemma Removes<R>(p: Pending<R>, id: string)
    requires Inv(p)
    ensures var q := Remove(p, id);
            && Inv(q) && Later(p, q) && Followed(p, q) && q.table - {id} == p.table - {id}
            && q.dropped - p.dropped == if id in p.table then Waiters(p.table[id]) else {}
  {
    RemoveKeeps(p, id);
    RemoveFollowed(p, id);
    assert id in p.table ==> forall w :: w in Waiters(p.table[id]) ==> w !in p.gone;
  }

  /** A slot has at most one waiter, and what is mailed to it is the verdict. */
  lemma OnlyOne<R>(s: Slot<R>, outcomes: map<nat, R>, r: R)
    requires SlotOk(s, outcomes)
    ensures var ds := Envelopes(s, Verdict(s, r));
            && |ds| <= 1 && Named(ds) == Waiters(s)
            && (|ds| == 1 ==> ds[0] == Delivery(ds[0].waiter, s.serial, Verdict(s, r)))
            && Waiters(Settled(s, r)) == {}
  {
    var ds := Envelopes(s, Verdict(s, r));
    SettledSlot(s, outcomes, r);
    if |ds| == 1 { assert ds[0].waiter in Named(ds); }
  }
}
