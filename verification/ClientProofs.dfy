/** What every step of a client keeps: each call and its slot, waiter or result stay together. */
module ClientProofs {
  import opened Common
  import opened Framing
  import opened Rpc
  import P = PendingCalls
  import opened ClientCalls

  // ---------------------------------------------------------------------------------------
  // The invariant
  // ---------------------------------------------------------------------------------------

  /** The call's slot is in the table with nobody bound to it. */
  predicate AtRest(p: Pending, k: Call)
  {
    && k.Id() in p.table && p.table[k.Id()].serial == k.serial
    && !p.table[k.Id()].asyncBound && !p.table[k.Id()].coroutineBound
  }

  predicate DoneAtRest(p: Pending, k: Call) { AtRest(p, k) && p.table[k.Id()].done }

  /** The call's waiter is bound to its slot. */
  predicate Bound(p: Pending, k: Call, n: nat)
  {
    && k.Id() in p.table && p.table[k.Id()].serial == k.serial && P.Holds(p.table[k.Id()], n)
    && (if k.co then p.table[k.Id()].coroutineBound else p.table[k.Id()].asyncBound)
  }

  /** The call's waiter is on its way to be woken. */
  predicate Mailed(p: Pending, k: Call, n: nat)
  {
    exists i :: 0 <= i < |p.outbox| && p.outbox[i].waiter == n && p.outbox[i].serial == k.serial
  }

  ghost predicate CallOk(p: Pending, k: Call, n: nat)
  {
    match k.phase
    case Added => AtRest(p, k) && P.Unused(p, n)
    case Sent => AtRest(p, k) && P.Unused(p, n)
    case SendFailed => DoneAtRest(p, k) && P.Unused(p, n)
    case Waiting => Bound(p, k, n) || (Mailed(p, k, n) && (k.co ==> DoneAtRest(p, k)))
    case Resumed => DoneAtRest(p, k)
    case Returned(o) => k.serial in p.outcomes && p.outcomes[k.serial] == o
  }

  /** Waiter w, held under `id`, is a call that waits there. */
  predicate Waits(calls: seq<Call>, id: string, w: nat)
  {
    w < |calls| && calls[w].phase == Waiting && calls[w].Id() == id
  }

  /** Waiters in the table are calls that wait. */
  ghost predicate HeldOk(t: P.Table<Outcome>, calls: seq<Call>)
  {
    forall id, w: nat :: id in t && P.Holds(t[id], w) ==> Waits(calls, id, w)
  }

  /** So are those on their way. */
  ghost predicate MailOk(outbox: seq<P.Delivery<Outcome>>, calls: seq<Call>)
  {
    forall i :: 0 <= i < |outbox| ==>
      var d := outbox[i]; d.waiter < |calls| && calls[d.waiter].phase == Waiting && calls[d.waiter].serial == d.serial
  }

  ghost predicate WaitersOk(p: Pending, calls: seq<Call>)
  {
    HeldOk(p.table, calls) && MailOk(p.outbox, calls) && (forall w :: w in p.gone ==> w < |calls|)
  }

  predicate Numbered(calls: seq<Call>, nextId: nat, nextSerial: nat)
  {
    && (forall n :: 0 <= n < |calls| ==>
          1 <= calls[n].number <= nextId && calls[n].serial < nextSerial && calls[n].request.id == calls[n].Id())
    && (forall m, n :: 0 <= m < n < |calls| ==>
       calls[m].number != calls[n].number && calls[m].serial != calls[n].serial)
  }

  predicate Owns(calls: seq<Call>, n: nat, id: string, serial: nat)
  {
    n < |calls| && calls[n].Id() == id && calls[n].serial == serial
  }

  /** Every slot was made for a call. */
  ghost predicate Owned(t: P.Table<Outcome>, calls: seq<Call>)
  {
    forall id :: id in t ==> exists n :: Owns(calls, n, id, t[id].serial)
  }

  ghost predicate CallsOk(p: Pending, calls: seq<Call>)
  {
    forall n :: 0 <= n < |calls| ==> CallOk(p, calls[n], n)
  }

  /** An outcome for `id` is a failure of the client's own, or was read from a frame that answers `id`. */
  ghost predicate SourceOk(o: Outcome, id: string, sessions: seq<Session>, codecs: Codecs)
  {
    match o
    case Local(r) => IsFailure(r)
    case Remote(_, s, r) => o == FromServer(s, r) && r.id == id && s < |sessions| && Read(sessions[s], r, codecs)
  }

  ghost predicate Read(x: Session, r: Response, codecs: Codecs)
  {
    exists j :: 0 <= j < |x.frames| && codecs.responses.parse(x.frames[j]) == Some(r)
  }

  ghost predicate Sources(c: Client, codecs: Codecs)
  {
    forall n :: 0 <= n < |c.calls| && c.calls[n].serial in c.pending.outcomes ==>
      SourceOk(c.pending.outcomes[c.calls[n].serial], c.calls[n].Id(), c.sessions, codecs)
  }

  ghost predicate Tables(c: Client)
  {
    && P.Inv(c.pending) && CallsOk(c.pending, c.calls) && WaitersOk(c.pending, c.calls)
    && Numbered(c.calls, c.nextId, c.pending.nextSerial) && Owned(c.pending.table, c.calls)
  }

  /** A body on the wire is a request of one of the calls, or a heartbeat. */
  ghost predicate Ours(body: seq<byte>, calls: seq<Call>, codecs: Codecs)
  {
    || (exists n :: 0 <= n < |calls| && body == codecs.requests.serialise(calls[n].request))
    || (exists m :: body == codecs.requests.serialise(HeartbeatRequest(m)))
  }

  ghost predicate SessionOk(x: Session, calls: seq<Call>, codecs: Codecs)
  {
    && Sendable(x.bodies) && (forall i :: 0 <= i < |x.bodies| ==> Ours(x.bodies[i], calls, codecs))
    && OnTheWay(x.received, x.frames, x.unread)
    && Unfinished(x.tail) && WireOk(x)
  }

  /** Unless something was written after a frame that broke off, the wire holds the bodies, and that part of a frame. */
  ghost predicate WireOk(x: Session) { !x.torn ==> x.wire == Wholes(x.bodies) + Rest(x.tail) }

  function Wholes(bodies: seq<seq<byte>>): (r: seq<Piece>)
    ensures |r| == |bodies|
  {
    if |bodies| == 0 then [] else Wholes(bodies[..|bodies| - 1]) + [Full(bodies[|bodies| - 1])]
  }

  function Rest(tail: seq<byte>): seq<Piece> { if tail == [] then [] else [Part(tail)] }

  /** The beginning of a frame, and not all of it. */
  ghost predicate Unfinished(tail: seq<byte>)
  {
    || tail == []
    || (exists body: seq<byte> :: ValidLength(|body|) && |tail| < |Frame(body)| && tail == Frame(body)[..|tail|])
  }

  ghost predicate SessionsOk(sessions: seq<Session>, calls: seq<Call>, codecs: Codecs)
  {
    forall s :: 0 <= s < |sessions| ==> SessionOk(sessions[s], calls, codecs)
  }

  ghost predicate Inv(c: Client, codecs: Codecs)
  {
    Tables(c) && Sources(c, codecs) && SessionsOk(c.sessions, c.calls, codecs)
  }

  // ---------------------------------------------------------------------------------------
  // Table operations seen from the calls
  // ---------------------------------------------------------------------------------------

  /** Calls have their ids to themselves. */
  lemma OwnId(c: Client, m: nat, n: nat)
    requires Numbered(c.calls, c.nextId, c.pending.nextSerial) && m < |c.calls| && n < |c.calls|
    ensures c.calls[m].Id() == c.calls[n].Id() ==> m == n
    ensures c.calls[m].serial == c.calls[n].serial ==> m == n
  {
    if c.calls[m].Id() == c.calls[n].Id() { DecimalInjective(c.calls[m].number, c.calls[n].number); }
  }

  // What settling a slot does to a call: at rest it becomes done, bound it is on its way.

  lemma SettleAtRest(p: Pending, id: string, o: Outcome, k: Call)
    requires P.Slots(p) && id in p.table && AtRest(p, k)
    ensures var q := P.Settle(p, id, o); AtRest(q, k) && (p.table[k.Id()].done || id == k.Id() ==> DoneAtRest(q, k))
  {
    assert P.SlotOk(p.table[id], p.outcomes);
  }

  lemma SettleUnused(p: Pending, id: string, o: Outcome, n: nat)
    requires P.Slots(p) && id in p.table && P.Unused(p, n)
    ensures P.Unused(P.Settle(p, id, o), n)
  {
    var q := P.Settle(p, id, o);
    assert P.SlotOk(p.table[id], p.outcomes);
    P.SettledSlot(p.table[id], p.outcomes, o);
    assert !P.Holds(p.table[id], n);
    forall x | x in q.table ensures !P.Holds(q.table[x], n) {
      if x != id { assert q.table[x] == p.table[x]; }
    }
  }

  lemma SettleMailed(p: Pending, id: string, o: Outcome, k: Call, n: nat)
    requires id in p.table && Mailed(p, k, n)
    ensures Mailed(P.Settle(p, id, o), k, n)
  {
    var i :| 0 <= i < |p.outbox| && p.outbox[i].waiter == n && p.outbox[i].serial == k.serial;
    assert P.Settle(p, id, o).outbox[i] == p.outbox[i];
  }

  lemma SettleBound(p: Pending, o: Outcome, k: Call, n: nat)
    requires P.Slots(p) && Bound(p, k, n)
    ensures var q := P.Settle(p, k.Id(), o); Mailed(q, k, n) && (k.co ==> DoneAtRest(q, k))
  {
    var s, q := p.table[k.Id()], P.Settle(p, k.Id(), o);
    assert P.SlotOk(s, p.outcomes);
    var ds := P.Envelopes(s, P.Verdict(s, o));
    assert ds == [P.Delivery(n, k.serial, P.Verdict(s, o))];
    assert q.outbox[|p.outbox|] == ds[0];
  }

  lemma SettleReturned(p: Pending, id: string, o: Outcome, serial: nat)
    requires P.Slots(p) && id in p.table && serial in p.outcomes
    ensures var q := P.Settle(p, id, o); serial in q.outcomes && q.outcomes[serial] == p.outcomes[serial]
  {
    assert P.SlotOk(p.table[id], p.outcomes);
    P.SettledSlot(p.table[id], p.outcomes, o);
  }

  lemma SettleCall(p: Pending, id: string, o: Outcome, k: Call, n: nat)
    requires P.Slots(p) && id in p.table && CallOk(p, k, n)
    ensures CallOk(P.Settle(p, id, o), k, n)
  {
    match k.phase
    case Added => SettleAtRest(p, id, o, k); SettleUnused(p, id, o, n);
    case Sent => SettleAtRest(p, id, o, k); SettleUnused(p, id, o, n);
    case SendFailed => SettleAtRest(p, id, o, k); SettleUnused(p, id, o, n);
    case Resumed => SettleAtRest(p, id, o, k);
    case Returned(_) => SettleReturned(p, id, o, k.serial);
    case Waiting => SettleWaiting(p, id, o, k, n);
  }

  lemma SettleWaiting(p: Pending, id: string, o: Outcome, k: Call, n: nat)
    requires P.Slots(p) && id in p.table && k.phase == Waiting && CallOk(p, k, n)
    ensures CallOk(P.Settle(p, id, o), k, n)
  {
    if Bound(p, k, n) {
      if id == k.Id() { SettleBound(p, o, k, n); }
    } else {
      SettleMailed(p, id, o, k, n);
      if k.co { SettleAtRest(p, id, o, k); }
    }
  }

  lemma SettleWaiters(p: Pending, calls: seq<Call>, id: string, o: Outcome)
    requires P.Inv(p) && id in p.table && WaitersOk(p, calls) && CallsOk(p, calls)
    ensures WaitersOk(P.Settle(p, id, o), calls)
  {
    var s := p.table[id];
    SettleMail(p, calls, id, o);
    assert P.SlotOk(s, p.outcomes);
    P.SettledSlot(s, p.outcomes, o);
    HeldChanged(p.table, calls, id, P.Settled(s, o));
    forall w | w in P.Waiters(s) ensures w < |calls| {
      HolderSerial(p, calls, id, w);
    }
  }

  lemma SettleMail(p: Pending, calls: seq<Call>, id: string, o: Outcome)
    requires P.Inv(p) && id in p.table && WaitersOk(p, calls) && CallsOk(p, calls)
    ensures MailOk(P.Settle(p, id, o).outbox, calls)
  {
    var s := p.table[id];
    assert P.SlotOk(s, p.outcomes);
    var ds := P.Envelopes(s, P.Verdict(s, o));
    forall i | 0 <= i < |ds|
      ensures var d := ds[i];
              d.waiter < |calls| && calls[d.waiter].phase == Waiting && calls[d.waiter].serial == d.serial
    {
      HolderSerial(p, calls, id, ds[i].waiter);
    }
  }

  /** A slot changes to one that holds nobody, or nobody new. */
  lemma HeldChanged(t: P.Table<Outcome>, calls: seq<Call>, id: string, s: P.Slot<Outcome>)
    requires HeldOk(t, calls) && forall w: nat :: P.Holds(s, w) ==> Waits(calls, id, w)
    ensures HeldOk(t[id := s], calls) && HeldOk(t - {id}, calls)
  {
    var u := t[id := s];
    forall x, w: nat | x in u && P.Holds(u[x], w) ensures Waits(calls, x, w) {
      if x != id { assert P.Holds(t[x], w); }
    }
    var v := t - {id};
    forall x, w: nat | x in v && P.Holds(v[x], w) ensures Waits(calls, x, w) {
      assert P.Holds(t[x], w);
    }
  }

  /** The call bound to a slot is the one the slot was made for. */
  lemma HolderSerial(p: Pending, calls: seq<Call>, id: string, w: nat)
    requires P.Inv(p) && WaitersOk(p, calls) && CallsOk(p, calls) && id in p.table && P.Holds(p.table[id], w)
    ensures w < |calls| && calls[w].phase == Waiting && calls[w].serial == p.table[id].serial
  {
    assert Waits(calls, id, w);
    assert CallOk(p, calls[w], w);
    HeldNotMailed(p, id, calls[w], w);
  }

  lemma HeldNotMailed(p: Pending, id: string, k: Call, w: nat)
    requires P.Inv(p) && id in p.table && P.Holds(p.table[id], w)
    ensures !Mailed(p, k, w)
  {
    assert w !in p.gone;
  }

  // ---------------------------------------------------------------------------------------
  // Settling, completing and failing
  // ---------------------------------------------------------------------------------------

  /** A slot's outcome belongs to the call that owns the slot. */
  lemma SettleSources(c: Client, codecs: Codecs, id: string, o: Outcome)
    requires Inv(c, codecs) && id in c.pending.table && SourceOk(o, id, c.sessions, codecs)
    ensures Sources(c.(pending := P.Settle(c.pending, id, o)), codecs)
  {
    var p, s := c.pending, c.pending.table[id];
    assert P.SlotOk(s, p.outcomes);
    var m :| Owns(c.calls, m, id, s.serial);
    forall n | 0 <= n < |c.calls| && c.calls[n].serial == s.serial ensures n == m { OwnId(c, m, n); }
  }

  lemma SettleTables(c: Client, id: string, o: Outcome)
    requires Tables(c) && id in c.pending.table
    ensures Tables(c.(pending := P.Settle(c.pending, id, o)))
  {
    var p, q := c.pending, P.Settle(c.pending, id, o);
    P.SettleKeeps(p, id, o);
    SettleWaiters(p, c.calls, id, o);
    forall n | 0 <= n < |c.calls| ensures CallOk(q, c.calls[n], n) { SettleCall(p, id, o, c.calls[n], n); }
    OwnedStill(p.table, q.table, c.calls);
  }

  lemma OwnedStill(t: P.Table<Outcome>, u: P.Table<Outcome>, calls: seq<Call>)
    requires Owned(t, calls) && forall id :: id in u ==> id in t && u[id].serial == t[id].serial
    ensures Owned(u, calls)
  {
    forall id | id in u ensures exists n :: Owns(calls, n, id, u[id].serial) {
      var n :| Owns(calls, n, id, t[id].serial);
    }
  }

  lemma SettleStep(c: Client, codecs: Codecs, id: string, o: Outcome)
    requires Inv(c, codecs) && id in c.pending.table && SourceOk(o, id, c.sessions, codecs)
    ensures Inv(c.(pending := P.Settle(c.pending, id, o)), codecs)
  {
    SettleTables(c, id, o);
    SettleSources(c, codecs, id, o);
  }

  lemma {:induction false} FailStep(c: Client, codecs: Codecs, ids: seq<string>, now: Option<nat>, cause: Cause)
    requires Inv(c, codecs)
    ensures Inv(Fail(c, ids, now, cause), codecs)
  {
    if |ids| == 0 {
      assert Fail(c, ids, now, cause) == c;
    } else {
      var before, id := ids[..|ids| - 1], ids[|ids| - 1];
      FailStep(c, codecs, before, now, cause);
      var d := Fail(c, before, now, cause);
      FailOneStep(d, codecs, id, now, cause);
      assert Fail(c, ids, now, cause) == d.(pending := P.FailOne(d.pending, id, now, Failed(cause)));
    }
  }

  lemma FailOneStep(c: Client, codecs: Codecs, id: string, now: Option<nat>, cause: Cause)
    requires Inv(c, codecs)
    ensures Inv(c.(pending := P.FailOne(c.pending, id, now, Failed(cause))), codecs)
  {
    if id in c.pending.table { SettleStep(c, codecs, id, Failed(cause)); }
  }

  // ---------------------------------------------------------------------------------------
  // Erasing a slot nobody relies on
  // ---------------------------------------------------------------------------------------

  /** The call does not need its slot any more. */
  predicate Free(p: Pending, k: Call, n: nat)
  {
    k.phase.Returned? || (k.phase == Waiting && !k.co && Mailed(p, k, n))
  }

  lemma EraseCall(p: Pending, id: string, k: Call, n: nat)
    requires CallOk(p, k, n) && (k.Id() == id ==> Free(p, k, n))
    ensures CallOk(P.Erase(p, id), k, n)
  {
    var q := P.Erase(p, id);
    assert Mailed(p, k, n) <==> Mailed(q, k, n);
  }

  lemma EraseTables(c: Client, id: string)
    requires Tables(c)
    requires forall n :: 0 <= n < |c.calls| && c.calls[n].Id() == id ==> Free(c.pending, c.calls[n], n)
    ensures Tables(c.(pending := P.Erase(c.pending, id)))
  {
    var p, q := c.pending, P.Erase(c.pending, id);
    P.EraseKeeps(p, id);
    HeldErased(p.table, c.calls, id);
    forall n | 0 <= n < |c.calls| ensures CallOk(q, c.calls[n], n) { EraseCall(p, id, c.calls[n], n); }
    OwnedStill(p.table, q.table, c.calls);
  }

  lemma HeldErased(t: P.Table<Outcome>, calls: seq<Call>, id: string)
    requires HeldOk(t, calls)
    ensures HeldOk(t - {id}, calls)
  {
    HeldChanged(t, calls, id, P.FreshSlot(0));
  }

  lemma CompleteStep(c: Client, codecs: Codecs, id: string, o: Outcome)
    requires Inv(c, codecs) && SourceOk(o, id, c.sessions, codecs)
    ensures Inv(c.(pending := P.Complete(c.pending, id, o).0), codecs)
  {
    if id in c.pending.table && !c.pending.table[id].done {
      SettleStep(c, codecs, id, o);
      if c.pending.table[id].promise.Some? {
        var d := c.(pending := P.Settle(c.pending, id, o));
        PromiseTaken(c, id, o);
        EraseTables(d, id);
      }
    }
  }

  /** A promise that was bound is on its way once its slot is settled. */
  lemma PromiseTaken(c: Client, id: string, o: Outcome)
    requires Tables(c) && id in c.pending.table && c.pending.table[id].promise.Some?
    ensures var q := P.Settle(c.pending, id, o);
            forall n :: 0 <= n < |c.calls| && c.calls[n].Id() == id ==> Free(q, c.calls[n], n)
  {
    var p, w := c.pending, c.pending.table[id].promise.value;
    assert P.SlotOk(p.table[id], p.outcomes);
    assert P.Holds(p.table[id], w);
    HolderSerial(p, c.calls, id, w);
    assert Waits(c.calls, id, w) && CallOk(p, c.calls[w], w);
    HeldNotMailed(p, id, c.calls[w], w);
    SettleBound(p, o, c.calls[w], w);
    forall n | 0 <= n < |c.calls| && c.calls[n].Id() == id ensures n == w { OwnId(c, n, w); }
  }
}
