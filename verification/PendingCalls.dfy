/**
  The client's table of pending calls.  Every operation is one critical section; promises are set and coroutines resumed
  after the lock is released, so waiters taken out of the table are kept in an outbox until they are delivered.
 */
module PendingCalls {
  import opened Common

  /** `serial` tells apart slots that reuse an id.  Waiters are promises and coroutine handles, both numbered. */
  datatype Slot<R> = Slot(
    serial: nat,
    done: bool,
    result: Option<R>,
    promise: Option<nat>,
    asyncBound: bool,
    handle: Option<nat>,
    coroutineBound: bool,
    deadline: nat)

  type Table<R> = map<string, Slot<R>>

  datatype Delivery<R> = Delivery(waiter: nat, serial: nat, result: R)

  datatype BindStatus = Bound | AlreadyDone | NotFound | AlreadyBound

  // ---------------------------------------------------------------------------------------
  // One slot
  // ---------------------------------------------------------------------------------------

  function FreshSlot<R>(serial: nat): Slot<R> { Slot(serial, false, None, None, false, None, false, 0) }

  /** The result of a slot once it is done with r at the latest. */
  function Verdict<R>(s: Slot<R>, r: R): R
  {
    if s.done && s.result.Some? then s.result.value else r
  }

  predicate Holds<R>(s: Slot<R>, w: nat)
  {
    s.promise == Some(w) || (s.coroutineBound && s.handle == Some(w))
  }

  /** The waiters a slot holds. */
  function Waiters<R>(s: Slot<R>): (r: set<nat>)
    ensures forall w :: w in r <==> Holds(s, w)
  {
    (if s.promise.Some? then {s.promise.value} else {})
    + (if s.coroutineBound && s.handle.Some? then {s.handle.value} else {})
  }

  /** What `FailAll` and `FailTimedOut` make of a slot: done, its waiters taken out, the async mark left. */
  function Settled<R>(s: Slot<R>, r: R): Slot<R>
  {
    var handed := s.coroutineBound && s.handle.Some?;
    s.(done := true, result := Some(Verdict(s, r)), promise := None,
       coroutineBound := if handed then false else s.coroutineBound, handle := if handed then None else s.handle)
  }

  predicate TimesOut<R>(s: Slot<R>, now: nat)
  {
    !s.done && now >= s.deadline && (s.asyncBound || s.coroutineBound)
  }

  // ---------------------------------------------------------------------------------------
  // The table and its surroundings
  // ---------------------------------------------------------------------------------------

  /** `outcomes` records, for every slot ever done, the outcome that was first to take the lock; `delivered` is the
      history of deliveries, `gone` the waiters that have left the table, and `dropped` those that `Remove` erased with
      their slot. */
  datatype Pending<R> = Pending(
    table: Table<R>,
    nextSerial: nat,
    outbox: seq<Delivery<R>>,
    delivered: seq<Delivery<R>>,
    outcomes: map<nat, R>,
    gone: set<nat>,
    dropped: set<nat>)

  /** What is to be delivered to the waiters of a slot. */
  function Envelopes<R>(s: Slot<R>, r: R): seq<Delivery<R>>
  {
    (if s.promise.Some? then [Delivery(s.promise.value, s.serial, r)] else [])
    + (if s.coroutineBound && s.handle.Some? then [Delivery(s.handle.value, s.serial, r)] else [])
  }

  /** Finish the slot of `id` with r unless it is done, and take its waiters out. */
  function Settle<R>(p: Pending<R>, id: string, r: R): Pending<R>
    requires id in p.table
  {
    var s := p.table[id];
    p.(table := p.table[id := Settled(s, r)],
       outbox := p.outbox + Envelopes(s, Verdict(s, r)),
       outcomes := p.outcomes[s.serial := Verdict(s, r)],
       gone := p.gone + Waiters(s))
  }

  function Erase<R>(p: Pending<R>, id: string): Pending<R> { p.(table := p.table - {id}) }

  // ---------------------------------------------------------------------------------------
  // Operations
  // ---------------------------------------------------------------------------------------

  function Add<R>(p: Pending<R>, id: string): (Pending<R>, bool)
  {
    if id == "" || id in p.table then (p, false)
    else (p.(table := p.table[id := FreshSlot(p.nextSerial)], nextSerial := p.nextSerial + 1), true)
  }

  /** A promise bound to a slot that is already done is set at once. */
  function BindAsync<R>(p: Pending<R>, id: string, w: nat, deadline: nat): (Pending<R>, bool)
  {
    if id !in p.table then (p, false)
    else
      var s := p.table[id];
      if s.asyncBound || s.coroutineBound then (p, false)
      else if s.done then
        if s.result.Some?
        then (Erase(p, id).(delivered := p.delivered + [Delivery(w, s.serial, s.result.value)], gone := p.gone + {w}),
            true)
        else (Erase(p, id), true)
      else (p.(table := p.table[id := s.(promise := Some(w), asyncBound := true, deadline := deadline)]), true)
  }

  function BindCoroutine<R>(p: Pending<R>, id: string, w: nat, deadline: nat): (Pending<R>, BindStatus)
  {
    if id !in p.table then (p, NotFound)
    else
      var s := p.table[id];
      if s.coroutineBound || s.asyncBound then (p, AlreadyBound)
      else if s.done then (p, AlreadyDone)
      else (p.(table := p.table[id := s.(handle := Some(w), coroutineBound := true, deadline := deadline)]), Bound)
  }

  /** The first outcome wins; an async slot goes with its promise, a coroutine's slot waits to be popped. */
  function Complete<R>(p: Pending<R>, id: string, r: R): (Pending<R>, bool)
  {
    if id !in p.table || p.table[id].done then (p, false)
    else
      var q := Settle(p, id, r);
      (if p.table[id].promise.Some? then Erase(q, id) else q, true)
  }

  function TryPop<R>(p: Pending<R>, id: string): (Pending<R>, Option<R>)
  {
    if id !in p.table || !p.table[id].done then (p, None) else (Erase(p, id), p.table[id].result)
  }

  function Remove<R>(p: Pending<R>, id: string): Pending<R>
  {
    if id !in p.table then p
    else Erase(p, id).(gone := p.gone + Waiters(p.table[id]), dropped := p.dropped + Waiters(p.table[id]))
  }

  /** One round of the loops of `FailAll` (no `now`) and `FailTimedOut`. */
  function FailOne<R>(p: Pending<R>, id: string, now: Option<nat>, r: R): Pending<R>
  {
    if id in p.table && (now.Some? ==> TimesOut(p.table[id], now.value)) then Settle(p, id, r) else p
  }

  /** The loop, over the ids in the order the hash map yields them. */
  function FailEach<R>(p: Pending<R>, ids: seq<string>, now: Option<nat>, r: R): Pending<R>
  {
    if |ids| == 0 then p else FailOne(FailEach(p, ids[..|ids| - 1], now, r), ids[|ids| - 1], now, r)
  }

  /** A waiter is woken outside the lock. */
  function Deliver<R>(p: Pending<R>, i: nat): Pending<R>
    requires i < |p.outbox|
  {
    p.(outbox := p.outbox[..i] + p.outbox[i + 1..], delivered := p.delivered + [p.outbox[i]])
  }

  // ---------------------------------------------------------------------------------------
  // The invariant
  // ---------------------------------------------------------------------------------------

  ghost predicate SlotOk<R>(s: Slot<R>, outcomes: map<nat, R>)
  {
    && (s.done <==> s.result.Some?) && (s.done <==> s.serial in outcomes)
    && (s.done ==> outcomes[s.serial] == s.result.value)
    && (s.promise.Some? ==> s.asyncBound && !s.done)
    && (s.asyncBound && !s.done ==> s.promise.Some?)
    && (s.coroutineBound <==> s.handle.Some?) && (s.coroutineBound ==> !s.done)
    && !(s.asyncBound && s.coroutineBound)
  }

  ghost predicate Slots<R>(p: Pending<R>)
  {
    && (forall id :: id in p.table ==> SlotOk(p.table[id], p.outcomes) && p.table[id].serial < p.nextSerial && id != "")
    && (forall a, b :: a in p.table && b in p.table && p.table[a].serial == p.table[b].serial ==> a == b)
    && (forall n :: n in p.outcomes ==> n < p.nextSerial)
  }

  predicate Distinct<R>(ds: seq<Delivery<R>>)
  {
    forall i, j :: 0 <= i < j < |ds| ==> ds[i].waiter != ds[j].waiter
  }

  /** The waiters in a list of deliveries. */
  function Named<R>(ds: seq<Delivery<R>>): set<nat> { set i | 0 <= i < |ds| :: ds[i].waiter }

  /** Everything on its way or delivered carries the outcome of its slot. */
  ghost predicate Faithful<R>(ds: seq<Delivery<R>>, outcomes: map<nat, R>)
  {
    forall i :: 0 <= i < |ds| ==> ds[i].serial in outcomes && ds[i].result == outcomes[ds[i].serial]
  }

  /** No two slots share a waiter, and none that left the table is still in it. */
  ghost predicate Holders<R>(t: Table<R>, gone: set<nat>)
  {
    && (forall a, b, w :: a in t && b in t && Holds(t[a], w) && Holds(t[b], w) ==> a == b)
    && (forall a, w :: a in t && Holds(t[a], w) ==> w !in gone)
  }

  /** Outbox, deliveries and drops have no waiter twice, nor in common, and are all those that left the table. */
  ghost predicate Apart<R>(p: Pending<R>)
  {
    && Distinct(p.outbox + p.delivered)
    && (forall i :: 0 <= i < |p.outbox| ==> p.outbox[i].waiter in p.gone - p.dropped)
    && (forall i :: 0 <= i < |p.delivered| ==> p.delivered[i].waiter in p.gone - p.dropped)
    && p.dropped <= p.gone && |p.gone| == |p.outbox| + |p.delivered| + |p.dropped|
  }

  ghost predicate Inv<R>(p: Pending<R>)
  {
    && Slots(p) && Holders(p.table, p.gone) && Apart(p)
    && Faithful(p.outbox, p.outcomes) && Faithful(p.delivered, p.outcomes)
  }

  /** No trace of waiter w yet. */
  ghost predicate Unused<R>(p: Pending<R>, w: nat)
  {
    w !in p.gone && forall id :: id in p.table ==> !Holds(p.table[id], w)
  }

  // ---------------------------------------------------------------------------------------
  // What every operation keeps
  // ---------------------------------------------------------------------------------------

  lemma SettleSlots<R>(p: Pending<R>, id: string, r: R)
    requires Slots(p) && id in p.table
    ensures Slots(Settle(p, id, r))
  {
    var s := p.table[id];
    assert SlotOk(s, p.outcomes);
    forall x | x in p.table ensures SlotOk(Settle(p, id, r).table[x], p.outcomes[s.serial := Verdict(s, r)]) {
      assert SlotOk(p.table[x], p.outcomes);
    }
  }

  /** A settled slot keeps the outcome it had, and its only waiter is out. */
  lemma SettledSlot<R>(s: Slot<R>, outcomes: map<nat, R>, r: R)
    requires SlotOk(s, outcomes)
    ensures forall n :: n in outcomes ==> outcomes[s.serial := Verdict(s, r)][n] == outcomes[n]
    ensures forall w :: !Holds(Settled(s, r), w)
    ensures |Envelopes(s, Verdict(s, r))| <= 1
  {
  }

  lemma FaithfulLater<R>(ds: seq<Delivery<R>>, before: map<nat, R>, after: map<nat, R>)
    requires Faithful(ds, before) && forall n :: n in before ==> n in after && after[n] == before[n]
    ensures Faithful(ds, after)
  {
  }

  lemma HoldersSettled<R>(t: Table<R>, gone: set<nat>, id: string, s: Slot<R>)
    requires Holders(t, gone) && id in t && forall w :: !Holds(s, w)
    ensures Holders(t[id := s], gone + Waiters(t[id]))
  {
    var u := t[id := s];
    forall a, w | a in u && Holds(u[a], w) ensures w !in gone + Waiters(t[id]) {
      assert a != id && Holds(t[a], w);
    }
  }

  lemma HoldersErased<R>(t: Table<R>, gone: set<nat>, id: string)
    requires Holders(t, gone)
    ensures Holders(t - {id}, if id in t then gone + Waiters(t[id]) else gone)
    ensures Holders(t - {id}, gone)
  {
    var u := t - {id};
    forall a, w | a in u && Holds(u[a], w) ensures id in t ==> w !in Waiters(t[id]) {
      assert Holds(t[a], w);
    }
  }

  lemma HoldersChanged<R>(t: Table<R>, gone: set<nat>, id: string, s: Slot<R>)
    requires Holders(t, gone)
    requires forall w :: Holds(s, w) ==> w !in gone && forall a :: a in t && a != id ==> !Holds(t[a], w)
    ensures Holders(t[id := s], gone)
  {
  }

  /** One more waiter goes from the table to the outbox. */
  lemma ApartMore<R>(p: Pending<R>, q: Pending<R>, d: Delivery<R>)
    requires Apart(p) && d.waiter !in p.gone
    requires q.outbox == p.outbox + [d] && q.delivered == p.delivered && q.dropped == p.dropped
             && q.gone == p.gone + {d.waiter}
    ensures Apart(q)
  {
    forall i, j | 0 <= i < j < |q.outbox + q.delivered|
      ensures (q.outbox + q.delivered)[i].waiter != (q.outbox + q.delivered)[j].waiter
    {
      var k := |p.outbox|;
      assert i < k ==> (q.outbox + q.delivered)[i] == (p.outbox + p.delivered)[i];
      assert i > k ==> (q.outbox + q.delivered)[i] == (p.outbox + p.delivered)[i - 1];
      assert j < k ==> (q.outbox + q.delivered)[j] == (p.outbox + p.delivered)[j];
      assert j > k ==> (q.outbox + q.delivered)[j] == (p.outbox + p.delivered)[j - 1];
    }
  }

  lemma SettleApart<R>(p: Pending<R>, id: string, r: R)
    requires Slots(p) && Holders(p.table, p.gone) && Apart(p) && id in p.table
    ensures Apart(Settle(p, id, r))
  {
    var s, q := p.table[id], Settle(p, id, r);
    assert SlotOk(s, p.outcomes);
    SettledSlot(s, p.outcomes, r);
    var ds := Envelopes(s, Verdict(s, r));
    if |ds| == 1 {
      assert Holds(s, ds[0].waiter);
      assert Waiters(s) == {ds[0].waiter};
      ApartMore(p, q, ds[0]);
    } else {
      assert q.outbox == p.outbox && Waiters(s) == {};
    }
  }

  lemma SettleKeeps<R>(p: Pending<R>, id: string, r: R)
    requires Inv(p) && id in p.table
    ensures Inv(Settle(p, id, r))
  {
    var s, q := p.table[id], Settle(p, id, r);
    SettleSlots(p, id, r);
    SettleApart(p, id, r);
    assert SlotOk(s, p.outcomes);
    SettledSlot(s, p.outcomes, r);
    HoldersSettled(p.table, p.gone, id, Settled(s, r));
    FaithfulLater(p.outbox, p.outcomes, q.outcomes);
    FaithfulLater(p.delivered, p.outcomes, q.outcomes);
  }

  lemma EraseKeeps<R>(p: Pending<R>, id: string)
    requires Inv(p)
    ensures Inv(Erase(p, id))
  {
    HoldersErased(p.table, p.gone, id);
  }

  lemma AddKeeps<R>(p: Pending<R>, id: string)
    requires Inv(p)
    ensures Inv(Add(p, id).0)
  {
    HoldersChanged(p.table, p.gone, id, FreshSlot(p.nextSerial));
  }

  lemma BindAsyncKeeps<R>(p: Pending<R>, id: string, w: nat, deadline: nat)
    requires Inv(p) && Unused(p, w)
    ensures Inv(BindAsync(p, id, w, deadline).0)
  {
    if id in p.table {
      var s := p.table[id];
      assert SlotOk(s, p.outcomes);
      if s.asyncBound || s.coroutineBound {
      } else if s.done {
        SetAtOnce(p, id, w);
      } else {
        HoldersChanged(p.table, p.gone, id, s.(promise := Some(w), asyncBound := true, deadline := deadline));
      }
    }
  }

  /** A promise for a slot that is done already. */
  lemma SetAtOnce<R>(p: Pending<R>, id: string, w: nat)
    requires Inv(p) && Unused(p, w) && id in p.table && p.table[id].done && !p.table[id].coroutineBound
    ensures SlotOk(p.table[id], p.outcomes)
    ensures var s := p.table[id];
            Inv(Erase(p, id).(delivered := p.delivered + [Delivery(w, s.serial, s.result.value)], gone := p.gone + {w}))
  {
    var s := p.table[id];
    assert SlotOk(s, p.outcomes);
    var d := Delivery(w, s.serial, s.result.value);
    EraseKeeps(p, id);
    ApartDelivered(Erase(p, id), d);
  }

  /** One more waiter is delivered without having been in the outbox. */
  lemma ApartDelivered<R>(p: Pending<R>, d: Delivery<R>)
    requires Apart(p) && d.waiter !in p.gone
    ensures Apart(p.(delivered := p.delivered + [d], gone := p.gone + {d.waiter}))
  {
    var q := p.(delivered := p.delivered + [d], gone := p.gone + {d.waiter});
    assert q.outbox + q.delivered == (p.outbox + p.delivered) + [d];
    forall i | 0 <= i < |p.outbox + p.delivered| ensures (p.outbox + p.delivered)[i].waiter != d.waiter {
      assert (p.outbox + p.delivered)[i].waiter in p.gone;
    }
  }

  lemma BindCoroutineKeeps<R>(p: Pending<R>, id: string, w: nat, deadline: nat)
    requires Inv(p) && Unused(p, w)
    ensures Inv(BindCoroutine(p, id, w, deadline).0)
  {
    if id in p.table {
      var s := p.table[id];
      assert SlotOk(s, p.outcomes);
      if !s.asyncBound && !s.coroutineBound && !s.done {
        HoldersChanged(p.table, p.gone, id, s.(handle := Some(w), coroutineBound := true, deadline := deadline));
      }
    }
  }

  lemma CompleteKeeps<R>(p: Pending<R>, id: string, r: R)
    requires Inv(p)
    ensures Inv(Complete(p, id, r).0)
  {
    if id in p.table && !p.table[id].done {
      SettleKeeps(p, id, r);
      EraseKeeps(Settle(p, id, r), id);
    }
  }

  lemma RemoveKeeps<R>(p: Pending<R>, id: string)
    requires Inv(p)
    ensures Inv(Remove(p, id))
  {
    HoldersErased(p.table, p.gone, id);
    if id in p.table {
      assert forall w :: w in Waiters(p.table[id]) ==> Holds(p.table[id], w) && w !in p.gone;
    }
  }

  lemma {:induction false} FailEachKeeps<R>(p: Pending<R>, ids: seq<string>, now: Option<nat>, r: R)
    requires Inv(p)
    ensures Inv(FailEach(p, ids, now, r)) && FailEach(p, ids, now, r).table.Keys == p.table.Keys
  {
    if |ids| > 0 {
      var before, id := ids[..|ids| - 1], ids[|ids| - 1];
      FailEachKeeps(p, before, now, r);
      FailOneKeeps(FailEach(p, before, now, r), id, now, r);
    }
  }

  lemma FailOneKeeps<R>(p: Pending<R>, id: string, now: Option<nat>, r: R)
    requires Inv(p)
    ensures Inv(FailOne(p, id, now, r)) && FailOne(p, id, now, r).table.Keys == p.table.Keys
  {
    if id in p.table { SettleKeeps(p, id, r); }
  }

  lemma DeliverKeeps<R>(p: Pending<R>, i: nat)
    requires Inv(p) && i < |p.outbox|
    ensures Inv(Deliver(p, i))
  {
    var q, d := Deliver(p, i), p.outbox[i];
    forall a, b | 0 <= a < b < |q.outbox + q.delivered|
      ensures (q.outbox + q.delivered)[a].waiter != (q.outbox + q.delivered)[b].waiter
    {
      DeliverAt(p, i, a);
      DeliverAt(p, i, b);
    }
  }

  /** Where a delivery was before the i-th was delivered. */
  function Formerly(i: nat, all: nat, k: nat): nat { if k < i then k else if k < all - 1 then k + 1 else i }

  lemma DeliverAt<R>(p: Pending<R>, i: nat, k: nat)
    requires i < |p.outbox| && k < |p.outbox| + |p.delivered|
    ensures var q := Deliver(p, i); var all := |p.outbox| + |p.delivered|;
            |q.outbox + q.delivered| == all
                && (q.outbox + q.delivered)[k] == (p.outbox + p.delivered)[Formerly(i, all, k)]
  {
  }

  // ---------------------------------------------------------------------------------------
  // Every interleaving
  // ---------------------------------------------------------------------------------------

  /** The operations of any number of threads, and the deliveries outside the lock.  A waiter is bound once. */
  datatype Action<R> =
    | DoAdd(id: string)
    | DoBindAsync(id: string, w: nat, deadline: nat)
    | DoBindCoroutine(id: string, w: nat, deadline: nat)
    | DoComplete(id: string, r: R)
    | DoTryPop(id: string)
    | DoRemove(id: string)
    | DoFail(ids: seq<string>, now: Option<nat>, r: R)
    | DoDeliver(i: nat)

  ghost function Next<R>(p: Pending<R>, a: Action<R>): Pending<R>
  {
    match a
    case DoAdd(id) => Add(p, id).0
    case DoBindAsync(id, w, deadline) => if Unused(p, w) then BindAsync(p, id, w, deadline).0 else p
    case DoBindCoroutine(id, w, deadline) => if Unused(p, w) then BindCoroutine(p, id, w, deadline).0 else p
    case DoComplete(id, r) => Complete(p, id, r).0
    case DoTryPop(id) => TryPop(p, id).0
    case DoRemove(id) => Remove(p, id)
    case DoFail(ids, now, r) => FailEach(p, ids, now, r)
    case DoDeliver(i) => if i < |p.outbox| then Deliver(p, i) else p
  }

  ghost function Exec<R>(p: Pending<R>, run: seq<Action<R>>): Pending<R>
    decreases |run|
  {
    if |run| == 0 then p else Exec(Next(p, run[0]), run[1..])
  }

  function Init<R>(): Pending<R> { Pending(map[], 0, [], [], map[], {}, {}) }

  lemma NextKeeps<R>(p: Pending<R>, a: Action<R>)
    requires Inv(p)
    ensures Inv(Next(p, a))
  {
    match a
    case DoAdd(id) => AddKeeps(p, id);
    case DoBindAsync(id, w, deadline) => if Unused(p, w) { BindAsyncKeeps(p, id, w, deadline); }
    case DoBindCoroutine(id, w, deadline) => if Unused(p, w) { BindCoroutineKeeps(p, id, w, deadline); }
    case DoComplete(id, r) => CompleteKeeps(p, id, r);
    case DoTryPop(id) => EraseKeeps(p, id);
    case DoRemove(id) => RemoveKeeps(p, id);
    case DoFail(ids, now, r) => FailEachKeeps(p, ids, now, r);
    case DoDeliver(i) => if i < |p.outbox| { DeliverKeeps(p, i); }
  }

  /** What has been decided and delivered stays so. */
  ghost predicate Later<R>(p: Pending<R>, q: Pending<R>)
  {
    && (forall n :: n in p.outcomes ==> n in q.outcomes && q.outcomes[n] == p.outcomes[n])
    && p.delivered <= q.delivered
  }

  lemma SettleLater<R>(p: Pending<R>, id: string, r: R)
    requires Inv(p) && id in p.table
    ensures Later(p, Settle(p, id, r))
  {
    assert SlotOk(p.table[id], p.outcomes);
    SettledSlot(p.table[id], p.outcomes, r);
  }

  lemma {:induction false} FailEachLater<R>(p: Pending<R>, ids: seq<string>, now: Option<nat>, r: R)
    requires Inv(p)
    ensures Later(p, FailEach(p, ids, now, r))
  {
    if |ids| > 0 {
      var before, id := ids[..|ids| - 1], ids[|ids| - 1];
      FailEachLater(p, before, now, r);
      FailEachKeeps(p, before, now, r);
      var q := FailEach(p, before, now, r);
      if id in q.table { SettleLater(q, id, r); }
    }
  }

  lemma NextLater<R>(p: Pending<R>, a: Action<R>)
    requires Inv(p)
    ensures Later(p, Next(p, a))
  {
    match a
    case DoComplete(id, r) => CompleteLater(p, id, r);
    case DoFail(ids, now, r) => FailEachLater(p, ids, now, r);
    case DoBindAsync(id, w, deadline) => BindLater(p, id, w, deadline);
    case DoBindCoroutine(id, w, deadline) => BindLater(p, id, w, deadline);
    case _ =>
  }

  lemma CompleteLater<R>(p: Pending<R>, id: string, r: R)
    requires Inv(p)
    ensures Later(p, Complete(p, id, r).0)
  {
    if id in p.table { SettleLater(p, id, r); }
  }

  lemma BindLater<R>(p: Pending<R>, id: string, w: nat, deadline: nat)
    ensures Later(p, BindAsync(p, id, w, deadline).0) && Later(p, BindCoroutine(p, id, w, deadline).0)
  {
  }

  lemma {:induction false} ExecKeeps<R>(p: Pending<R>, run: seq<Action<R>>)
    requires Inv(p)
    ensures Inv(Exec(p, run)) && Later(p, Exec(p, run))
    decreases |run|
  {
    if |run| > 0 {
      NextKeeps(p, run[0]);
      NextLater(p, run[0]);
      ExecKeeps(Next(p, run[0]), run[1..]);
    }
  }

  lemma {:induction false} NamedSize<R>(ds: seq<Delivery<R>>)
    requires Distinct(ds)
    ensures |Named(ds)| == |ds|
  {
    if |ds| > 0 {
      var before, last := ds[..|ds| - 1], ds[|ds| - 1];
      NamedSize(before);
      assert Named(ds) == Named(before) + {last.waiter};
    }
  }

  lemma {:induction false} SmallerInside(a: set<nat>, b: set<nat>)
    requires a <= b
    ensures |a| <= |b|
  {
    if a != {} {
      var x :| x in a;
      SmallerInside(a - {x}, b - {x});
    }
  }

  lemma AllInside(a: set<nat>, b: set<nat>)
    requires a <= b && |a| == |b|
    ensures a == b
  {
    forall x | x in b ensures x in a {
      if x !in a { SmallerInside(a, b - {x}); }
    }
  }

  lemma NamedAppend<R>(a: seq<Delivery<R>>, b: seq<Delivery<R>>)
    ensures Named(a + b) == Named(a) + Named(b)
  {
    forall i | 0 <= i < |a| ensures a[i].waiter in Named(a + b) { assert (a + b)[i] == a[i]; }
    forall i | 0 <= i < |b| ensures b[i].waiter in Named(a + b) { assert (a + b)[|a| + i] == b[i]; }
  }

  lemma SizeWithout(a: set<nat>, b: set<nat>)
    requires b <= a
    ensures |a - b| == |a| - |b|
  {
    assert a == (a - b) + b;
  }

  /** The waiters that have left the table are those on their way, the delivered and the dropped, with none in two of
      these. */
  lemma Partition<R>(p: Pending<R>)
    requires Apart(p)
    ensures p.gone == Named(p.outbox) + Named(p.delivered) + p.dropped
    ensures Named(p.outbox) !! Named(p.delivered) !! p.dropped
  {
    NamedSize(p.outbox + p.delivered);
    NamedAppend(p.outbox, p.delivered);
    OutAndIn(p);
    SizeWithout(p.gone, p.dropped);
    AllInside(Named(p.outbox) + Named(p.delivered), p.gone - p.dropped);
  }

  lemma OutAndIn<R>(p: Pending<R>)
    requires Apart(p)
    ensures Named(p.outbox) !! Named(p.delivered)
  {
    forall i, j | 0 <= i < |p.outbox| && 0 <= j < |p.delivered| ensures p.outbox[i].waiter != p.delivered[j].waiter {
      var all := p.outbox + p.delivered;
      assert all[i] == p.outbox[i] && all[|p.outbox| + j] == p.delivered[j];
    }
  }

  // Waiters do not disappear.

  ghost predicate Held<R>(p: Pending<R>, w: nat) { exists id :: id in p.table && Holds(p.table[id], w) }

  /** Whoever waited waits still or has left the table, and nobody comes back. */
  ghost predicate Followed<R>(p: Pending<R>, q: Pending<R>)
  {
    p.gone <= q.gone && forall w: nat :: Held(p, w) ==> Held(q, w) || w in q.gone
  }

  lemma FollowedTwice<R>(p: Pending<R>, q: Pending<R>, r: Pending<R>)
    requires Followed(p, q) && Followed(q, r)
    ensures Followed(p, r)
  {
  }

  /** A step that touches one slot, whose waiters stay in it or go. */
  lemma FollowedAt<R>(p: Pending<R>, q: Pending<R>, id: string)
    requires p.gone <= q.gone
    requires forall x :: x in p.table && x != id ==> x in q.table && q.table[x] == p.table[x]
    requires id in p.table ==>
               forall w: nat :: Holds(p.table[id], w) ==> (id in q.table && Holds(q.table[id], w)) || w in q.gone
    ensures Followed(p, q)
  {
    forall w: nat | Held(p, w) ensures Held(q, w) || w in q.gone {
      var x :| x in p.table && Holds(p.table[x], w);
      if x != id { assert Holds(q.table[x], w); }
    }
  }

  lemma {:induction false} FailEachFollowed<R>(p: Pending<R>, ids: seq<string>, now: Option<nat>, r: R)
    ensures Followed(p, FailEach(p, ids, now, r))
  {
    if |ids| > 0 {
      var q := FailEach(p, ids[..|ids| - 1], now, r);
      FailEachFollowed(p, ids[..|ids| - 1], now, r);
      FollowedAt(q, FailOne(q, ids[|ids| - 1], now, r), ids[|ids| - 1]);
      FollowedTwice(p, q, FailOne(q, ids[|ids| - 1], now, r));
    }
  }

  lemma CompleteFollowed<R>(p: Pending<R>, id: string, r: R)
    ensures Followed(p, Complete(p, id, r).0)
  {
    FollowedAt(p, Complete(p, id, r).0, id);
  }

  lemma BindFollowed<R>(p: Pending<R>, id: string, w: nat, deadline: nat)
    requires Inv(p)
    ensures Followed(p, BindAsync(p, id, w, deadline).0) && Followed(p, BindCoroutine(p, id, w, deadline).0)
  {
    assert id in p.table ==> SlotOk(p.table[id], p.outcomes);
    FollowedAt(p, BindAsync(p, id, w, deadline).0, id);
    FollowedAt(p, BindCoroutine(p, id, w, deadline).0, id);
  }

  lemma PopFollowed<R>(p: Pending<R>, id: string)
    requires Inv(p)
    ensures Followed(p, TryPop(p, id).0)
  {
    assert id in p.table ==> SlotOk(p.table[id], p.outcomes);
    FollowedAt(p, TryPop(p, id).0, id);
  }

  lemma RemoveFollowed<R>(p: Pending<R>, id: string)
    ensures Followed(p, Remove(p, id))
  {
    FollowedAt(p, Remove(p, id), id);
  }

  lemma NextFollowed<R>(p: Pending<R>, a: Action<R>)
    requires Inv(p)
    ensures Followed(p, Next(p, a))
  {
    match a
    case DoAdd(id) => FollowedAt(p, Add(p, id).0, id);
    case DoBindAsync(id, w, deadline) => BindFollowed(p, id, w, deadline);
    case DoBindCoroutine(id, w, deadline) => BindFollowed(p, id, w, deadline);
    case DoComplete(id, r) => CompleteFollowed(p, id, r);
    case DoTryPop(id) => PopFollowed(p, id);
    case DoRemove(id) => RemoveFollowed(p, id);
    case DoFail(ids, now, r) => FailEachFollowed(p, ids, now, r);
    case DoDeliver(i) => if i < |p.outbox| { FollowedAt(p, Deliver(p, i), ""); }
  }

  /** No waiter is lost: whoever is bound to a slot at some point of a run is later still bound, or on its way, or has
      been delivered, or was removed with its slot by `Remove`. */
  lemma {:induction false} NoWaiterLost<R>(p: Pending<R>, run: seq<Action<R>>, w: nat)
    requires Inv(p) && (Held(p, w) || w in p.gone)
    ensures var q := Exec(p, run); Held(q, w) || w in Named(q.outbox) || w in Named(q.delivered) || w in q.dropped
    decreases |run|
  {
    if |run| > 0 {
      NextKeeps(p, run[0]);
      NextFollowed(p, run[0]);
      NoWaiterLost(Next(p, run[0]), run[1..], w);
    } else {
      Partition(p);
    }
  }

  /** Exactly once, first outcome wins: in every interleaving a waiter is delivered at most once, with the outcome that
      first took the lock on its slot, and that outcome never changes afterwards; the waiters taken out of the table are
      split into those on their way, those delivered and those removed with their slot; and no slot is bound both ways
      or holds a waiter once it is done. */
  lemma ExactlyOnceFirstWins<R>(run: seq<Action<R>>, more: seq<Action<R>>)
    ensures var p := Exec(Init<R>(), run); var q := Exec(p, more);
            && (forall i, j :: 0 <= i < j < |p.delivered| ==> p.delivered[i].waiter != p.delivered[j].waiter)
            && (forall i :: 0 <= i < |p.delivered| ==>
                  && p.delivered[i].serial in p.outcomes && p.delivered[i].result == p.outcomes[p.delivered[i].serial])
            && (forall n :: n in p.outcomes ==> n in q.outcomes && q.outcomes[n] == p.outcomes[n])
            && p.gone == Named(p.outbox) + Named(p.delivered) + p.dropped
            && Named(p.outbox) !! Named(p.delivered) !! p.dropped
            && (forall id :: id in p.table ==>
                  var s := p.table[id];
                  !(s.asyncBound && s.coroutineBound) && (s.done ==> s.promise.None? && s.handle.None?))
  {
    ExecKeeps(Init<R>(), run);
    var p := Exec(Init<R>(), run);
    ExecKeeps(p, more);
    Partition(p);
    DeliveredOnce(p);
    assert forall id :: id in p.table ==> SlotOk(p.table[id], p.outcomes);
  }

  lemma DeliveredOnce<R>(p: Pending<R>)
    requires Apart(p)
    ensures Distinct(p.delivered)
  {
    forall i, j | 0 <= i < j < |p.delivered| ensures p.delivered[i].waiter != p.delivered[j].waiter {
      var k := |p.outbox|;
      assert (p.outbox + p.delivered)[k + i] == p.delivered[i] && (p.outbox + p.delivered)[k + j] == p.delivered[j];
    }
  }

  /** Failing calls erases none. */
  lemma {:induction false} FailEachKeys<R>(p: Pending<R>, ids: seq<string>, now: Option<nat>, r: R)
    ensures FailEach(p, ids, now, r).table.Keys == p.table.Keys
  {
    if |ids| > 0 { FailEachKeys(p, ids[..|ids| - 1], now, r); }
  }

  /** After `FailAll` has gone over every id, no slot is undone or still holds a waiter, and those that were done keep
      their result. */
  lemma FailAllClears<R>(p: Pending<R>, ids: seq<string>, r: R, id: string)
    requires Inv(p) && id in p.table && id in ids
    ensures var q := FailEach(p, ids, None, r);
            && id in q.table && q.table[id].done && q.table[id].promise.None? && q.table[id].handle.None?
            && q.table[id].serial == p.table[id].serial
            && q.table[id].result == Some(Verdict(p.table[id], r))
  {
    FailEachAt(p, ids, r, id);
    FailEachKeeps(p, ids, None, r);
    assert SlotOk(FailEach(p, ids, None, r).table[id], FailEach(p, ids, None, r).outcomes);
  }

  /** What the loop has done to one slot: settled it if it has been there, nothing otherwise. */
  lemma {:induction false} FailEachAt<R>(p: Pending<R>, ids: seq<string>, r: R, id: string)
    requires id in p.table
    ensures var q := FailEach(p, ids, None, r);
            id in q.table && q.table[id] == if id in ids then Settled(p.table[id], r) else p.table[id]
  {
    if |ids| > 0 {
      var before, last := ids[..|ids| - 1], ids[|ids| - 1];
      FailEachAt(p, before, r, id);
      assert ids == before + [last];
      if last == id { SettledTwice(p.table[id], r); }
    }
  }

  /** A call that is not past its deadline is spared by `FailTimedOut`. */
  lemma {:induction false} FailEachSpares<R>(p: Pending<R>, ids: seq<string>, now: nat, r: R, id: string)
    requires Inv(p) && id in p.table && !TimesOut(p.table[id], now)
    ensures var q := FailEach(p, ids, Some(now), r);
            && Inv(q) && id in q.table && q.table[id] == p.table[id]
            && (p.table[id].serial in q.outcomes <==> p.table[id].serial in p.outcomes)
  {
    if |ids| > 0 {
      var before, last := ids[..|ids| - 1], ids[|ids| - 1];
      FailEachSpares(p, before, now, r, id);
      FailOneKeeps(FailEach(p, before, Some(now), r), last, Some(now), r);
      FailOneSpares(FailEach(p, before, Some(now), r), last, now, r, id);
    }
  }

  lemma FailOneSpares<R>(p: Pending<R>, other: string, now: nat, r: R, id: string)
    requires Slots(p) && id in p.table && !TimesOut(p.table[id], now)
    ensures var q := FailOne(p, other, Some(now), r);
            && id in q.table && q.table[id] == p.table[id]
            && (p.table[id].serial in q.outcomes <==> p.table[id].serial in p.outcomes)
  {
    if other in p.table && other != id { assert p.table[other].serial != p.table[id].serial; }
  }

  /** A call that has waited up to its deadline, and is not done. */
  predicate Due<R>(s: Slot<R>, now: nat) { !s.done && (s.asyncBound || s.coroutineBound) && s.deadline <= now }

  /** What has become of a slot: it is done with r, nobody waits in it, and whoever did is on the way with r. */
  ghost predicate FailedWith<R>(s: Slot<R>, after: Slot<R>, mail: seq<Delivery<R>>, r: R)
  {
    && after.done && after.result == Some(r) && after.serial == s.serial && Waiters(after) == {}
    && exists w: nat :: Holds(s, w) && Delivery(w, s.serial, r) in mail
  }

  /** `FailTimedOut` fails exactly the calls that are due: such a call is done with the failure and its waiter is on the
      way with it; any other slot is as it was. */
  lemma FailTimedOutExactly<R>(p: Pending<R>, ids: seq<string>, now: nat, r: R, id: string)
    requires Inv(p) && id in p.table && id in ids
    ensures var q := FailEach(p, ids, Some(now), r);
            && id in q.table && p.outbox <= q.outbox
            && (if Due(p.table[id], now) then FailedWith(p.table[id], q.table[id], q.outbox[|p.outbox|..], r)
                else q.table[id] == p.table[id])
  {
    OutboxGrows(p, ids, Some(now), r);
    if Due(p.table[id], now) {
      assert SlotOk(p.table[id], p.outcomes);
      DueIsFailed(p, ids, now, r, id);
    } else {
      FailEachSpares(p, ids, now, r, id);
    }
  }

  lemma {:induction false} OutboxGrows<R>(p: Pending<R>, ids: seq<string>, now: Option<nat>, r: R)
    ensures p.outbox <= FailEach(p, ids, now, r).outbox
  {
    if |ids| > 0 { OutboxGrows(p, ids[..|ids| - 1], now, r); }
  }

  /** Up to its turn a slot is untouched, then it is failed, and then it is done and left alone. */
  ghost predicate Turned<R>(p: Pending<R>, q: Pending<R>, id: string, turn: bool, r: R)
    requires id in p.table
  {
    && id in q.table && p.outbox <= q.outbox
    && (if turn then FailedWith(p.table[id], q.table[id], q.outbox[|p.outbox|..], r) else q.table[id] == p.table[id])
  }

  lemma {:induction false} DueIsFailed<R>(p: Pending<R>, ids: seq<string>, now: nat, r: R, id: string)
    requires id in p.table && SlotOk(p.table[id], p.outcomes) && Due(p.table[id], now)
    ensures Turned(p, FailEach(p, ids, Some(now), r), id, id in ids, r)
  {
    if |ids| > 0 {
      var before, last := ids[..|ids| - 1], ids[|ids| - 1];
      DueIsFailed(p, before, now, r, id);
      assert ids == before + [last];
      OneTurn(p, FailEach(p, before, Some(now), r), last, now, r, id, id in before);
    }
  }

  lemma OneTurn<R>(p: Pending<R>, q: Pending<R>, last: string, now: nat, r: R, id: string, turn: bool)
    requires id in p.table && SlotOk(p.table[id], p.outcomes) && Due(p.table[id], now) && Turned(p, q, id, turn, r)
    ensures Turned(p, FailOne(q, last, Some(now), r), id, turn || last == id, r)
  {
    if last != id || turn { OtherTurn(p, q, last, now, r, id); } else { OwnTurn(p, q, now, r, id); }
  }

  lemma OtherTurn<R>(p: Pending<R>, q: Pending<R>, other: string, now: nat, r: R, id: string)
    requires id in p.table && id in q.table && p.outbox <= q.outbox && (other != id || q.table[id].done)
    ensures var z := FailOne(q, other, Some(now), r);
            && id in z.table && z.table[id] == q.table[id] && q.outbox <= z.outbox
            && (FailedWith(p.table[id], q.table[id], q.outbox[|p.outbox|..], r) ==>
                  FailedWith(p.table[id], z.table[id], z.outbox[|p.outbox|..], r))
  {
    var z, n := FailOne(q, other, Some(now), r), |p.outbox|;
    assert q.outbox <= z.outbox;
    assert z.outbox[n..] == q.outbox[n..] + z.outbox[|q.outbox|..];
  }

  lemma OwnTurn<R>(p: Pending<R>, q: Pending<R>, now: nat, r: R, id: string)
    requires id in p.table && SlotOk(p.table[id], p.outcomes) && id in q.table && p.outbox <= q.outbox
    requires q.table[id] == p.table[id] && Due(p.table[id], now)
    ensures var z := FailOne(q, id, Some(now), r);
            id in z.table && q.outbox <= z.outbox && FailedWith(p.table[id], z.table[id], z.outbox[|p.outbox|..], r)
  {
    var s, z := p.table[id], FailOne(q, id, Some(now), r);
    var w: nat := if s.promise.Some? then s.promise.value else s.handle.value;
    var ds := Envelopes(s, r);
    assert z.outbox[|p.outbox|..] == q.outbox[|p.outbox|..] + ds;
    assert ds[0] == Delivery(w, s.serial, r);
    assert Holds(s, w) && Delivery(w, s.serial, r) in z.outbox[|p.outbox|..];
  }

  lemma SettledTwice<R>(s: Slot<R>, r: R)
    ensures Settled(Settled(s, r), r) == Settled(s, r)
  {
  }
}
