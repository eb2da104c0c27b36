/** The steps of `ClientCalls`, one by one, and all runs. */
module ClientSteps {
  import opened Common
  import opened Framing
  import P = PendingCalls
  import opened ClientCalls
  import opened ClientProofs

  // ---------------------------------------------------------------------------------------
  // Changing a call's phase
  // ---------------------------------------------------------------------------------------

  /** The same calls up to their phase. */
  predicate SameCalls(a: seq<Call>, b: seq<Call>)
  {
    |a| == |b| && forall n :: 0 <= n < |a| ==> a[n].(phase := Added) == b[n].(phase := Added)
  }

  lemma SameTables(c: Client, calls: seq<Call>)
    requires SameCalls(c.calls, calls) && Numbered(c.calls, c.nextId, c.pending.nextSerial)
             && Owned(c.pending.table, c.calls)
    ensures Numbered(calls, c.nextId, c.pending.nextSerial) && Owned(c.pending.table, calls)
  {
    assert forall n :: 0 <= n < |calls| ==>
      calls[n].Id() == c.calls[n].Id() && calls[n].serial == c.calls[n].serial && calls[n].request == c.calls[n].request
      && calls[n].number == c.calls[n].number;
    forall id | id in c.pending.table ensures exists n :: Owns(calls, n, id, c.pending.table[id].serial) {
      var n :| Owns(c.calls, n, id, c.pending.table[id].serial);
      assert Owns(calls, n, id, c.pending.table[id].serial);
    }
  }

  lemma SameLinks(c: Client, codecs: Codecs, calls: seq<Call>)
    requires SameCalls(c.calls, calls) && Sources(c, codecs) && SessionsOk(c.sessions, c.calls, codecs)
    ensures Sources(c.(calls := calls), codecs) && SessionsOk(c.sessions, calls, codecs)
  {
    assert forall n :: 0 <= n < |calls| ==>
      calls[n].Id() == c.calls[n].Id() && calls[n].serial == c.calls[n].serial
          && calls[n].request == c.calls[n].request;
    forall s | 0 <= s < |c.sessions| ensures SessionOk(c.sessions[s], calls, codecs) {
      OursStill(c.sessions[s], c.calls, calls, codecs);
    }
  }

  lemma OursStill(x: Session, a: seq<Call>, b: seq<Call>, codecs: Codecs)
    requires SessionOk(x, a, codecs) && |a| <= |b| && forall n :: 0 <= n < |a| ==> b[n].request == a[n].request
    ensures SessionOk(x, b, codecs)
  {
    forall i | 0 <= i < |x.bodies| ensures Ours(x.bodies[i], b, codecs) {
      assert Ours(x.bodies[i], a, codecs);
      if n :| 0 <= n < |a| && x.bodies[i] == codecs.requests.serialise(a[n].request) {
        assert x.bodies[i] == codecs.requests.serialise(b[n].request);
      }
    }
  }

  /** Nobody can wake call n. */
  ghost predicate NotWoken(p: Pending, n: nat)
  {
    && (forall id :: id in p.table ==> !P.Holds(p.table[id], n))
    && (forall i :: 0 <= i < |p.outbox| ==> p.outbox[i].waiter != n)
  }

  lemma PhaseStep(c: Client, codecs: Codecs, n: nat, phase: Phase)
    requires Inv(c, codecs) && n < |c.calls| && CallOk(c.pending, c.calls[n].(phase := phase), n)
             && NotWoken(c.pending, n)
    ensures Inv(SetPhase(c, n, phase), codecs)
  {
    PhaseTables(c, n, phase);
    SameLinks(c, codecs, SetPhase(c, n, phase).calls);
  }

  lemma PhaseTables(c: Client, n: nat, phase: Phase)
    requires Tables(c) && n < |c.calls| && CallOk(c.pending, c.calls[n].(phase := phase), n) && NotWoken(c.pending, n)
    ensures Tables(SetPhase(c, n, phase))
  {
    var d := SetPhase(c, n, phase);
    SameTables(c, d.calls);
    HeldWithout(c.pending.table, c.calls, d.calls, n);
    MailWithout(c.pending.outbox, c.calls, d.calls, n);
    PhaseCalls(c.pending, c.calls, n, phase);
  }

  lemma PhaseCalls(p: Pending, calls: seq<Call>, n: nat, phase: Phase)
    requires CallsOk(p, calls) && n < |calls| && CallOk(p, calls[n].(phase := phase), n)
    ensures CallsOk(p, calls[n := calls[n].(phase := phase)])
  {
    var after := calls[n := calls[n].(phase := phase)];
    forall m | 0 <= m < |after| ensures CallOk(p, after[m], m) { if m != n { assert after[m] == calls[m]; } }
  }

  lemma HeldWithout(t: P.Table<Outcome>, a: seq<Call>, b: seq<Call>, n: nat)
    requires HeldOk(t, a) && SameCalls(a, b) && forall m :: 0 <= m < |a| && m != n ==> b[m] == a[m]
    requires (forall id :: id in t ==> !P.Holds(t[id], n)) || (n < |b| && b[n].phase == Waiting)
    ensures HeldOk(t, b)
  {
    forall id, w: nat | id in t && P.Holds(t[id], w) ensures Waits(b, id, w) {
      assert Waits(a, id, w);
      assert b[w].Id() == a[w].Id();
    }
  }

  lemma MailWithout(outbox: seq<P.Delivery<Outcome>>, a: seq<Call>, b: seq<Call>, n: nat)
    requires MailOk(outbox, a) && SameCalls(a, b) && forall m :: 0 <= m < |a| && m != n ==> b[m] == a[m]
    requires (forall i :: 0 <= i < |outbox| ==> outbox[i].waiter != n) || (n < |b| && b[n].phase == Waiting)
    ensures MailOk(outbox, b)
  {
  }

  /** A call that does not wait is not woken. */
  lemma PhaseNotWoken(c: Client, n: nat)
    requires Tables(c) && n < |c.calls| && c.calls[n].phase != Waiting
    ensures NotWoken(c.pending, n)
  {
    forall id | id in c.pending.table ensures !P.Holds(c.pending.table[id], n) {
      assert P.Holds(c.pending.table[id], n) ==> Waits(c.calls, id, n);
    }
  }

  /** A done slot holds the outcome recorded for it. */
  lemma SlotResult(p: Pending, k: Call)
    requires P.Inv(p) && DoneAtRest(p, k)
    ensures p.table[k.Id()].result.Some? && k.serial in p.outcomes
            && p.outcomes[k.serial] == p.table[k.Id()].result.value
  {
    assert P.SlotOk(p.table[k.Id()], p.outcomes);
  }

  // ---------------------------------------------------------------------------------------
  // Popping
  // ---------------------------------------------------------------------------------------

  /** The call returns the result of its done slot, which goes. */
  lemma PopStep(c: Client, codecs: Codecs, n: nat)
    requires Inv(c, codecs) && n < |c.calls| && c.calls[n].phase != Waiting && DoneAtRest(c.pending, c.calls[n])
    ensures var (p, popped) := P.TryPop(c.pending, c.calls[n].Id());
            popped.Some? && Inv(SetPhase(c.(pending := p), n, Returned(popped.value)), codecs)
  {
    var k := c.calls[n];
    var (p, popped) := P.TryPop(c.pending, k.Id());
    SlotResult(c.pending, k);
    PhaseNotWoken(c, n);
    PhaseStep(c, codecs, n, Returned(popped.value));
    var d := SetPhase(c, n, Returned(popped.value));
    forall m | 0 <= m < |d.calls| && d.calls[m].Id() == k.Id() ensures Free(d.pending, d.calls[m], m) {
      OwnId(d, m, n);
    }
    EraseTables(d, k.Id());
    assert SetPhase(c.(pending := p), n, Returned(popped.value)) == d.(pending := P.Erase(d.pending, k.Id()));
  }

  lemma PopFailedStep(c: Client, codecs: Codecs, n: nat)
    requires Inv(c, codecs) && n < |c.calls|
    ensures Inv(PopFailed(c, n), codecs)
    ensures c.calls[n].phase == SendFailed ==> P.TryPop(c.pending, c.calls[n].Id()).1.Some?
  {
    assert CallOk(c.pending, c.calls[n], n);
    if c.calls[n].phase == SendFailed { PopStep(c, codecs, n); }
  }

  lemma PopResumedStep(c: Client, codecs: Codecs, n: nat)
    requires Inv(c, codecs) && n < |c.calls|
    ensures Inv(PopResumed(c, n), codecs)
    ensures c.calls[n].phase == Resumed ==> P.TryPop(c.pending, c.calls[n].Id()).1.Some?
  {
    assert CallOk(c.pending, c.calls[n], n);
    if c.calls[n].phase == Resumed { PopStep(c, codecs, n); }
  }

  // ---------------------------------------------------------------------------------------
  // Binding
  // ---------------------------------------------------------------------------------------

  /** What happens at another id leaves a call alone. */
  lemma Elsewhere(p: Pending, q: Pending, id: string, k: Call, n: nat)
    requires CallOk(p, k, n) && k.Id() != id && q.outbox == p.outbox && q.outcomes == p.outcomes
    requires k.Id() in p.table <==> k.Id() in q.table
    requires k.Id() in p.table ==> q.table[k.Id()] == p.table[k.Id()]
    requires P.Unused(p, n) ==> P.Unused(q, n)
    ensures CallOk(q, k, n)
  {
    assert Mailed(p, k, n) <==> Mailed(q, k, n);
  }

  lemma BindOthers(c: Client, n: nat, slot: P.Slot<Outcome>)
    requires Tables(c) && n < |c.calls| && c.calls[n].Id() in c.pending.table
    requires forall w: nat :: P.Holds(slot, w) ==> w == n
    ensures var q := c.pending.(table := c.pending.table[c.calls[n].Id() := slot]);
            forall m :: 0 <= m < |c.calls| && m != n ==> CallOk(q, c.calls[m], m)
  {
    var p, id := c.pending, c.calls[n].Id();
    var q := p.(table := p.table[id := slot]);
    forall m | 0 <= m < |c.calls| && m != n ensures CallOk(q, c.calls[m], m) {
      OwnId(c, m, n);
      if P.Unused(p, m) { UnusedStill(p, id, slot, m); }
      Elsewhere(p, q, id, c.calls[m], m);
    }
  }

  lemma UnusedStill(p: Pending, id: string, slot: P.Slot<Outcome>, m: nat)
    requires P.Unused(p, m) && !P.Holds(slot, m)
    ensures P.Unused(p.(table := p.table[id := slot]), m)
  {
  }

  /** `slot` is the slot of call n with its waiter in it. */
  ghost predicate Binds(c: Client, n: nat, slot: P.Slot<Outcome>)
  {
    && n < |c.calls| && c.calls[n].phase == Sent
    && c.calls[n].Id() in c.pending.table && slot.serial == c.calls[n].serial == c.pending.table[c.calls[n].Id()].serial
    && P.Holds(slot, n) && (forall w: nat :: P.Holds(slot, w) ==> w == n)
    && (if c.calls[n].co then slot.coroutineBound else slot.asyncBound)
  }

  function WithSlot(p: Pending, id: string, slot: P.Slot<Outcome>): Pending { p.(table := p.table[id := slot]) }

  lemma BoundCalls(c: Client, n: nat, slot: P.Slot<Outcome>)
    requires Tables(c) && Binds(c, n, slot)
    ensures CallsOk(WithSlot(c.pending, c.calls[n].Id(), slot), SetPhase(c, n, Waiting).calls)
  {
    BindOthers(c, n, slot);
    var q, d := WithSlot(c.pending, c.calls[n].Id(), slot), SetPhase(c, n, Waiting);
    assert Bound(q, d.calls[n], n);
    forall m | 0 <= m < |d.calls| ensures CallOk(q, d.calls[m], m) {
      if m != n { assert d.calls[m] == c.calls[m]; }
    }
  }

  lemma BoundWaiters(c: Client, n: nat, slot: P.Slot<Outcome>)
    requires Tables(c) && Binds(c, n, slot)
    ensures WaitersOk(WithSlot(c.pending, c.calls[n].Id(), slot), SetPhase(c, n, Waiting).calls)
  {
    var p, d := c.pending, SetPhase(c, n, Waiting);
    HeldWithout(p.table, c.calls, d.calls, n);
    HeldChanged(p.table, d.calls, c.calls[n].Id(), slot);
    MailWithout(p.outbox, c.calls, d.calls, n);
  }

  lemma BoundStep(c: Client, codecs: Codecs, n: nat, slot: P.Slot<Outcome>)
    requires Inv(c, codecs) && Binds(c, n, slot) && P.Inv(WithSlot(c.pending, c.calls[n].Id(), slot))
    ensures Inv(SetPhase(c.(pending := WithSlot(c.pending, c.calls[n].Id(), slot)), n, Waiting), codecs)
  {
    BoundTables(c, n, slot);
    SameLinks(c, codecs, SetPhase(c, n, Waiting).calls);
  }

  lemma BoundTables(c: Client, n: nat, slot: P.Slot<Outcome>)
    requires Tables(c) && Binds(c, n, slot) && P.Inv(WithSlot(c.pending, c.calls[n].Id(), slot))
    ensures Tables(SetPhase(c.(pending := WithSlot(c.pending, c.calls[n].Id(), slot)), n, Waiting))
  {
    var p, q, d := c.pending, WithSlot(c.pending, c.calls[n].Id(), slot), SetPhase(c, n, Waiting);
    BoundCalls(c, n, slot);
    BoundWaiters(c, n, slot);
    SameTables(c, d.calls);
    OwnedBound(p, d.calls, c.calls[n].Id(), slot);
  }

  lemma OwnedBound(p: Pending, calls: seq<Call>, id: string, slot: P.Slot<Outcome>)
    requires Owned(p.table, calls) && id in p.table && slot.serial == p.table[id].serial
    ensures Owned(WithSlot(p, id, slot).table, calls)
  {
    OwnedStill(p.table, WithSlot(p, id, slot).table, calls);
  }

  lemma BindCoStep(c: Client, codecs: Codecs, n: nat, deadline: nat)
    requires Inv(c, codecs) && n < |c.calls| && c.calls[n].phase == Sent && c.calls[n].co
    ensures Inv(Bind(c, n, deadline), codecs)
    ensures P.BindCoroutine(c.pending, c.calls[n].Id(), n, deadline).1 in {P.Bound, P.AlreadyDone}
  {
    var p, k := c.pending, c.calls[n];
    assert CallOk(p, k, n);
    P.BindCoroutineKeeps(p, k.Id(), n, deadline);
    if p.table[k.Id()].done {
      PhaseNotWoken(c, n);
      PhaseStep(c, codecs, n, Resumed);
      assert Bind(c, n, deadline) == SetPhase(c, n, Resumed);
    } else {
      assert P.SlotOk(p.table[k.Id()], p.outcomes);
      BoundStep(c, codecs, n, p.table[k.Id()].(handle := Some(n), coroutineBound := true, deadline := deadline));
    }
  }

  lemma BindAsyncStep(c: Client, codecs: Codecs, n: nat, deadline: nat)
    requires Inv(c, codecs) && n < |c.calls| && c.calls[n].phase == Sent && !c.calls[n].co
    ensures Inv(Bind(c, n, deadline), codecs)
    ensures P.BindAsync(c.pending, c.calls[n].Id(), n, deadline).1
  {
    var p, k := c.pending, c.calls[n];
    assert CallOk(p, k, n);
    P.BindAsyncKeeps(p, k.Id(), n, deadline);
    assert P.SlotOk(p.table[k.Id()], p.outcomes);
    if p.table[k.Id()].done {
      SetAtOnceStep(c, codecs, n, deadline);
    } else {
      BoundStep(c, codecs, n, p.table[k.Id()].(promise := Some(n), asyncBound := true, deadline := deadline));
    }
  }

  /** The slot is done already, so the promise is set under the lock and the slot goes. */
  lemma SetAtOnceStep(c: Client, codecs: Codecs, n: nat, deadline: nat)
    requires Inv(c, codecs) && n < |c.calls| && c.calls[n].phase == Sent && !c.calls[n].co
    requires DoneAtRest(c.pending, c.calls[n]) && P.Unused(c.pending, n)
    ensures Inv(Bind(c, n, deadline), codecs)
  {
    var k := c.calls[n];
    PopStep(c, codecs, n);
    SlotResult(c.pending, k);
    var o := c.pending.outcomes[k.serial];
    var d := SetPhase(c.(pending := P.Erase(c.pending, k.Id())), n, Returned(o));
    P.BindAsyncKeeps(c.pending, k.Id(), n, deadline);
    var q := P.BindAsync(c.pending, k.Id(), n, deadline).0;
    assert q == d.pending.(delivered := c.pending.delivered + [P.Delivery(n, k.serial, o)],
           gone := c.pending.gone + {n});
    assert Bind(c, n, deadline) == d.(pending := q);
    OneMoreGone(d, codecs, q, n);
  }

  /** The waiter of a call that has returned is recorded as gone. */
  lemma OneMoreGone(c: Client, codecs: Codecs, q: Pending, n: nat)
    requires Inv(c, codecs) && n < |c.calls| && c.calls[n].phase.Returned? && P.Inv(q)
    requires q == c.pending.(delivered := q.delivered, gone := c.pending.gone + {n})
    ensures Inv(c.(pending := q), codecs)
  {
    forall m | 0 <= m < |c.calls| ensures CallOk(q, c.calls[m], m) {
      assert CallOk(c.pending, c.calls[m], m);
      OneMoreGoneFor(c.pending, q, c.calls[m], m, n);
    }
  }

  lemma OneMoreGoneFor(p: Pending, q: Pending, k: Call, m: nat, n: nat)
    requires CallOk(p, k, m) && q == p.(delivered := q.delivered, gone := p.gone + {n})
    requires m == n ==> k.phase.Returned?
    ensures CallOk(q, k, m)
  {
    assert Mailed(p, k, m) <==> Mailed(q, k, m);
  }

  lemma BindStep(c: Client, codecs: Codecs, n: nat, deadline: nat)
    requires Inv(c, codecs) && n < |c.calls|
    ensures Inv(Bind(c, n, deadline), codecs)
  {
    if c.calls[n].phase == Sent {
      if c.calls[n].co { BindCoStep(c, codecs, n, deadline); } else { BindAsyncStep(c, codecs, n, deadline); }
    }
  }

  // ---------------------------------------------------------------------------------------
  // Waking
  // ---------------------------------------------------------------------------------------

  /** What the call in the i-th delivery is waiting for. */
  lemma WakeFacts(c: Client, i: nat)
    requires Tables(c) && i < |c.pending.outbox|
    ensures var d := c.pending.outbox[i];
            && d.waiter < |c.calls| && c.calls[d.waiter].phase == Waiting && c.calls[d.waiter].serial == d.serial
            && (c.calls[d.waiter].co ==> DoneAtRest(c.pending, c.calls[d.waiter]))
            && d.serial in c.pending.outcomes && c.pending.outcomes[d.serial] == d.result
  {
    var p, d := c.pending, c.pending.outbox[i];
    assert CallOk(p, c.calls[d.waiter], d.waiter);
    assert d.waiter in p.gone;
    assert !Bound(p, c.calls[d.waiter], d.waiter);
  }

  lemma MailedStill(p: Pending, i: nat, k: Call, m: nat)
    requires i < |p.outbox| && p.outbox[i].waiter != m && Mailed(p, k, m)
    ensures Mailed(P.Deliver(p, i), k, m)
  {
    var j :| 0 <= j < |p.outbox| && p.outbox[j].waiter == m && p.outbox[j].serial == k.serial;
    var q := P.Deliver(p, i);
    assert q.outbox[if j < i then j else j - 1] == p.outbox[j];
  }

  lemma WakeOther(p: Pending, i: nat, k: Call, m: nat)
    requires CallOk(p, k, m) && i < |p.outbox| && p.outbox[i].waiter != m
    ensures CallOk(P.Deliver(p, i), k, m)
  {
    if k.phase == Waiting && !Bound(p, k, m) { MailedStill(p, i, k, m); }
  }

  lemma MailLeft(p: Pending, i: nat, calls: seq<Call>)
    requires P.Inv(p) && i < |p.outbox| && MailOk(p.outbox, calls)
    ensures MailOk(P.Deliver(p, i).outbox, calls)
    ensures forall j :: 0 <= j < |P.Deliver(p, i).outbox| ==> P.Deliver(p, i).outbox[j].waiter != p.outbox[i].waiter
  {
    var q := P.Deliver(p, i);
    forall j | 0 <= j < |q.outbox| ensures q.outbox[j].waiter != p.outbox[i].waiter {
      var b := if j < i then j else j + 1;
      assert q.outbox[j] == p.outbox[b];
      assert (p.outbox + p.delivered)[b] == p.outbox[b] && (p.outbox + p.delivered)[i] == p.outbox[i];
    }
  }

  lemma WakeCalls(c: Client, i: nat)
    requires Tables(c) && i < |c.pending.outbox|
    ensures CallsOk(P.Deliver(c.pending, i), Wake(c, i).calls)
  {
    var p, q, w := c.pending, P.Deliver(c.pending, i), c.pending.outbox[i].waiter;
    WakeFacts(c, i);
    var e := Wake(c, i);
    forall m | 0 <= m < |e.calls| ensures CallOk(q, e.calls[m], m) {
      if m != w {
        assert e.calls[m] == c.calls[m];
        WakeOther(p, i, c.calls[m], m);
      }
    }
  }

  lemma WakeWaiters(c: Client, i: nat)
    requires Tables(c) && i < |c.pending.outbox|
    ensures WaitersOk(P.Deliver(c.pending, i), Wake(c, i).calls)
  {
    var p, q, w := c.pending, P.Deliver(c.pending, i), c.pending.outbox[i].waiter;
    WakeFacts(c, i);
    assert w in p.gone && forall id :: id in p.table ==> !P.Holds(p.table[id], w);
    HeldWithout(p.table, c.calls, Wake(c, i).calls, w);
    MailLeft(p, i, c.calls);
    MailWithout(q.outbox, c.calls, Wake(c, i).calls, w);
  }

  lemma WakeStep(c: Client, codecs: Codecs, i: nat)
    requires Inv(c, codecs) && i < |c.pending.outbox|
    ensures Inv(Wake(c, i), codecs)
  {
    WakeFacts(c, i);
    P.DeliverKeeps(c.pending, i);
    WakeCalls(c, i);
    WakeWaiters(c, i);
    SameTables(c, Wake(c, i).calls);
    SameLinks(c, codecs, Wake(c, i).calls);
  }
}
