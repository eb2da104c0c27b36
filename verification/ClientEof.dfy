/** What the end of a connection means for a call that is waiting: over runs in which callers, other connections and new
    arrivals go on between the frames the dispatcher handles. */
module ClientEof {
  import opened Common
  import opened Framing
  import opened Rpc
  import P = PendingCalls
  import opened ClientCalls
  import opened ClientProofs
  import opened ClientRuns
  import opened ClientFrames

  /** The first response for `id` among the bodies. */
  function FirstFor(codec: Codec<Response>, bodies: seq<seq<byte>>, id: string): Option<Response>
  {
    if |bodies| == 0 then None
    else
      var before := FirstFor(codec, bodies[..|bodies| - 1], id);
      var last := codec.parse(bodies[|bodies| - 1]);
      if before.Some? then before else if last.Some? && last.value.id == id then last else None
  }

  /** Before the end of connection s calls are failed only for being past their deadline, which the call `id` is not,
      and no frame of another connection is handled. */
  predicate Orderly(c: Client, a: Action, s: nat, id: string)
  {
    && (a.DoFrame? ==> a.s == s)
    && (a.DoFail? ==> a.now.Some? && (id in c.pending.table ==> !P.TimesOut(c.pending.table[id], a.now.value)))
  }

  predicate AllOrderly(c: Client, codecs: Codecs, actions: seq<Action>, s: nat, id: string)
    decreases |actions|
  {
    |actions| > 0 ==>
      Orderly(c, actions[0], s, id) && AllOrderly(Step(c, codecs, actions[0]), codecs, actions[1..], s, id)
  }

  /** The k-th frame of connection s and all later ones have been handled while call n waited: it has the first response
      for it among them, or no outcome yet. */
  ghost predicate Heard(c: Client, codecs: Codecs, n: nat, s: nat, k: nat)
  {
    && n < |c.calls| && c.calls[n].phase != Added && s < |c.sessions| && k <= |c.sessions[s].frames|
    && Has(c.pending, c.calls[n].serial, s, FirstFor(codecs.responses, c.sessions[s].frames[k..], c.calls[n].Id()))
  }

  predicate Has(p: Pending, serial: nat, s: nat, first: Option<Response>)
  {
    match first
    case Some(r) => serial in p.outcomes && p.outcomes[serial] == FromServer(s, r)
    case None => serial !in p.outcomes
  }

  // ---------------------------------------------------------------------------------------
  // What one step does to a call and to a connection
  // ---------------------------------------------------------------------------------------

  /** Call n is still the same call, and not unwritten again. */
  ghost predicate Stays(a: seq<Call>, b: seq<Call>, n: nat)
    requires n < |a|
  {
    n < |b| && b[n].(phase := Added) == a[n].(phase := Added) && (a[n].phase != Added ==> b[n].phase != Added)
  }

  lemma PhaseStays(c: Client, d: Client, m: nat, phase: Phase, n: nat)
    requires n < |c.calls| && m < |d.calls| && d.calls == c.calls && phase != Added
    ensures Stays(c.calls, SetPhase(d, m, phase).calls, n)
  {
  }

  lemma BindStays(c: Client, m: nat, deadline: nat, n: nat)
    requires n < |c.calls| && m < |c.calls|
    ensures Stays(c.calls, Bind(c, m, deadline).calls, n)
  {
  }

  lemma WriteStays(c: Client, codecs: Codecs, m: nat, ok: bool, part: nat, reason: string, n: nat)
    requires n < |c.calls| && m < |c.calls|
    ensures Stays(c.calls, Write(c, m, codecs, ok, part, reason).calls, n)
  {
  }

  lemma WakeStays(c: Client, i: nat, n: nat)
    requires n < |c.calls| && i < |c.pending.outbox|
    ensures Stays(c.calls, Wake(c, i).calls, n)
  {
  }

  lemma PopsStay(c: Client, m: nat, n: nat)
    requires n < |c.calls| && m < |c.calls|
    ensures Stays(c.calls, PopFailed(c, m).calls, n) && Stays(c.calls, PopResumed(c, m).calls, n)
  {
    var p := P.TryPop(c.pending, c.calls[m].Id()).0;
    if c.calls[m].phase == SendFailed {
      PhaseStays(c, c.(pending := p), m, PopFailed(c, m).calls[m].phase, n);
    } else if c.calls[m].phase == Resumed {
      PhaseStays(c, c.(pending := p), m, PopResumed(c, m).calls[m].phase, n);
    }
  }

  lemma CallStays(c: Client, codecs: Codecs, a: Action, n: nat)
    requires n < |c.calls|
    ensures Stays(c.calls, Step(c, codecs, a).calls, n)
  {
    match a
    case DoWrite(m, ok, part, reason) => if m < |c.calls| { WriteStays(c, codecs, m, ok, part, reason, n); }
    case DoPopFailed(m) => if m < |c.calls| { PopsStay(c, m, n); }
    case DoBind(m, deadline) => if m < |c.calls| { BindStays(c, m, deadline, n); }
    case DoWake(i) => if i < |c.pending.outbox| { WakeStays(c, i, n); }
    case DoPopResumed(m) => if m < |c.calls| { PopsStay(c, m, n); }
    case _ =>
  }

  /** Only its own frames being handled moves a connection's frames. */
  lemma FramesStay(c: Client, codecs: Codecs, a: Action, s: nat)
    requires s < |c.sessions| && a != DoFrame(s)
    ensures var d := Step(c, codecs, a); s < |d.sessions| && d.sessions[s].frames == c.sessions[s].frames
  {
    match a
    case DoWrite(n, ok, part, reason) => if n < |c.calls| { WriteFrames(c, codecs, n, ok, part, reason, s); }
    case DoHeartbeat(ok, part) => HeartbeatFrames(c, codecs, ok, part, s);
    case DoBind(n, deadline) => if n < |c.calls| { BindFrames(c, n, deadline); }
    case _ =>
  }

  lemma WriteFrames(c: Client, codecs: Codecs, n: nat, ok: bool, part: nat, reason: string, s: nat)
    requires s < |c.sessions| && n < |c.calls|
    ensures var d := Write(c, n, codecs, ok, part, reason);
            s < |d.sessions| && d.sessions[s].frames == c.sessions[s].frames
  {
  }

  lemma HeartbeatFrames(c: Client, codecs: Codecs, ok: bool, part: nat, s: nat)
    requires s < |c.sessions|
    ensures var d := SendHeartbeat(c, codecs, ok, part);
            s < |d.sessions| && d.sessions[s].frames == c.sessions[s].frames
  {
  }

  lemma BindFrames(c: Client, n: nat, deadline: nat)
    requires n < |c.calls|
    ensures Bind(c, n, deadline).sessions == c.sessions
  {
  }

  /** Outcomes come from failed writes, frames and failures alone. */
  lemma OutcomesStay(c: Client, codecs: Codecs, a: Action)
    requires !a.DoWrite? && !a.DoFrame? && !a.DoFail?
    ensures Step(c, codecs, a).pending.outcomes == c.pending.outcomes
  {
    if a.DoBind? && a.n < |c.calls| { BindDecidesNothing(c, a.n, a.deadline); }
  }

  lemma BindDecidesNothing(c: Client, n: nat, deadline: nat)
    requires n < |c.calls|
    ensures Bind(c, n, deadline).pending.outcomes == c.pending.outcomes
  {
  }

  /** Completing the slot of another call decides nothing about this one. */
  lemma CompleteElsewhere(c: Client, codecs: Codecs, n: nat, id: string, o: Outcome)
    requires Inv(c, codecs) && n < |c.calls| && id != c.calls[n].Id()
    ensures var q := P.Complete(c.pending, id, o).0; var serial := c.calls[n].serial;
            && (serial in q.outcomes <==> serial in c.pending.outcomes)
            && (serial in q.outcomes ==> q.outcomes[serial] == c.pending.outcomes[serial])
  {
    if id in c.pending.table {
      var m :| Owns(c.calls, m, id, c.pending.table[id].serial);
      OwnId(c, m, n);
    }
  }

  /** A call with no outcome has an undone slot. */
  lemma Undone(c: Client, codecs: Codecs, n: nat)
    requires Inv(c, codecs) && n < |c.calls| && c.calls[n].serial !in c.pending.outcomes
    ensures var k := c.calls[n];
            k.Id() in c.pending.table && c.pending.table[k.Id()].serial == k.serial && !c.pending.table[k.Id()].done
  {
    var p, k := c.pending, c.calls[n];
    assert CallOk(p, k, n);
    assert k.Id() in p.table ==> P.SlotOk(p.table[k.Id()], p.outcomes);
    assert Mailed(p, k, n) ==> k.serial in p.outcomes;
  }

  lemma HeardResponse(c: Client, codecs: Codecs, n: nat, s: nat, first: Option<Response>, r: Response)
    requires Inv(c, codecs) && n < |c.calls| && Has(c.pending, c.calls[n].serial, s, first)
    ensures Has(OneResponse(c.pending, s, r), c.calls[n].serial, s,
                if first.Some? then first else if r.id == c.calls[n].Id() then Some(r) else None)
  {
    var k := c.calls[n];
    NotAHeartbeatId(k.number);
    if r.id != k.Id() {
      CompleteElsewhere(c, codecs, n, r.id, FromServer(s, r));
    } else if first.None? {
      Undone(c, codecs, n);
      Decides(c.pending, r.id, FromServer(s, r));
    } else {
      DecidedStays(c, codecs, n, r.id, FromServer(s, r));
    }
  }

  lemma Decides(p: Pending, id: string, o: Outcome)
    requires id in p.table && !p.table[id].done
    ensures var q := P.Complete(p, id, o).0; p.table[id].serial in q.outcomes && q.outcomes[p.table[id].serial] == o
  {
  }

  lemma DecidedStays(c: Client, codecs: Codecs, n: nat, id: string, o: Outcome)
    requires Inv(c, codecs) && n < |c.calls| && c.calls[n].serial in c.pending.outcomes
    ensures var q, serial := P.Complete(c.pending, id, o).0, c.calls[n].serial;
            serial in q.outcomes && q.outcomes[serial] == c.pending.outcomes[serial]
  {
    PendingKeeps(c.pending, id, o, c.calls[n].serial);
  }

  lemma HandledIs(c: Client, codecs: Codecs, s: nat)
    requires s < |c.sessions| && Handles(c.sessions[s], codecs)
    ensures var x := c.sessions[s]; var n := FirstFrame(x.unread).n;
            var body := x.unread[HEADER_BYTES..HEADER_BYTES + n];
            HandleFrame(c, s, codecs)
            == c.(pending := OneResponse(c.pending, s, codecs.responses.parse(body).value),
                  sessions := c.sessions[s := x.(frames := x.frames + [body], unread := x.unread[HEADER_BYTES + n..])])
  {
  }

  lemma HeardFrame(c: Client, codecs: Codecs, n: nat, s: nat, k: nat)
    requires Inv(c, codecs) && Heard(c, codecs, n, s, k)
    ensures Heard(HandleFrame(c, s, codecs), codecs, n, s, k)
  {
    if Handles(c.sessions[s], codecs) {
      HandledIs(c, codecs, s);
      var x := c.sessions[s];
      HeardBody(c, codecs, n, s, k, x.unread[HEADER_BYTES..HEADER_BYTES + FirstFrame(x.unread).n]);
    } else {
      NothingToHandle(c, codecs, s);
    }
  }

  lemma HeardBody(c: Client, codecs: Codecs, n: nat, s: nat, k: nat, body: seq<byte>)
    requires Inv(c, codecs) && Heard(c, codecs, n, s, k) && codecs.responses.parse(body).Some?
    ensures Has(OneResponse(c.pending, s, codecs.responses.parse(body).value), c.calls[n].serial, s,
                FirstFor(codecs.responses, (c.sessions[s].frames + [body])[k..], c.calls[n].Id()))
  {
    var frames, id := c.sessions[s].frames, c.calls[n].Id();
    HeardResponse(c, codecs, n, s, FirstFor(codecs.responses, frames[k..], id), codecs.responses.parse(body).value);
    assert (frames + [body])[k..] == frames[k..] + [body];
    FirstForSnoc(codecs.responses, frames[k..], body, id);
  }

  lemma FirstForSnoc(codec: Codec<Response>, before: seq<seq<byte>>, body: seq<byte>, id: string)
    ensures FirstFor(codec, before + [body], id)
         == var first, last := FirstFor(codec, before, id), codec.parse(body);
            if first.Some? then first else if last.Some? && last.value.id == id then last else None
  {
    assert (before + [body])[..|before|] == before;
  }

  lemma HeardWrite(c: Client, codecs: Codecs, n: nat, m: nat, ok: bool, part: nat, reason: string)
    requires Inv(c, codecs) && n < |c.calls| && c.calls[n].phase != Added && m < |c.calls|
    ensures var q := Write(c, m, codecs, ok, part, reason).pending; var serial := c.calls[n].serial;
            && (serial in q.outcomes <==> serial in c.pending.outcomes)
            && (serial in q.outcomes ==> q.outcomes[serial] == c.pending.outcomes[serial])
  {
    if c.calls[m].phase == Added {
      OwnId(c, m, n);
      CompleteElsewhere(c, codecs, n, c.calls[m].Id(), Failure("send request failed: " + reason));
    }
  }

  /** A pass over the timeouts that spares call n. */
  lemma HeardTimeouts(c: Client, codecs: Codecs, n: nat, ids: seq<string>, now: nat, cause: Cause)
    requires Inv(c, codecs) && n < |c.calls|
    requires var id := c.calls[n].Id(); id in c.pending.table ==> !P.TimesOut(c.pending.table[id], now)
    ensures var q := Fail(c, ids, Some(now), cause).pending; var serial := c.calls[n].serial;
            && (serial in q.outcomes <==> serial in c.pending.outcomes)
            && (serial in q.outcomes ==> q.outcomes[serial] == c.pending.outcomes[serial])
  {
    P.FailEachLater(c.pending, ids, Some(now), Failed(cause));
    if c.calls[n].serial !in c.pending.outcomes {
      Undone(c, codecs, n);
      P.FailEachSpares(c.pending, ids, now, Failed(cause), c.calls[n].Id());
    }
  }

  lemma HeardStep(c: Client, codecs: Codecs, a: Action, n: nat, s: nat, k: nat)
    requires Inv(c, codecs) && Heard(c, codecs, n, s, k) && Orderly(c, a, s, c.calls[n].Id())
    ensures Heard(Step(c, codecs, a), codecs, n, s, k)
  {
    if a.DoFrame? {
      HeardFrame(c, codecs, n, s, k);
    } else {
      CallStays(c, codecs, a, n);
      FramesStay(c, codecs, a, s);
      if a.DoWrite? && a.n < |c.calls| {
        HeardWrite(c, codecs, n, a.n, a.ok, a.part, a.reason);
      } else if a.DoFail? {
        HeardTimeouts(c, codecs, n, a.ids, a.now.value, a.cause);
      } else if !a.DoWrite? {
        OutcomesStay(c, codecs, a);
      }
    }
  }

  lemma {:induction false} HeardRun(c: Client, codecs: Codecs, actions: seq<Action>, n: nat, s: nat, k: nat)
    requires Inv(c, codecs) && Heard(c, codecs, n, s, k)
    requires AllOrderly(c, codecs, actions, s, c.calls[n].Id())
    ensures Heard(Run(c, codecs, actions), codecs, n, s, k)
    decreases |actions|
  {
    if |actions| > 0 {
      var a, rest := actions[0], actions[1..];
      CallStays(c, codecs, a, n);
      HeardStep(c, codecs, a, n, s, k);
      StepOk(c, codecs, a);
      HeardRun(Step(c, codecs, a), codecs, rest, n, s, k);
    }
  }

  // ---------------------------------------------------------------------------------------
  // After the end
  // ---------------------------------------------------------------------------------------

  /** An outcome stays. */
  lemma OutcomeKept(c: Client, codecs: Codecs, a: Action, serial: nat)
    requires Inv(c, codecs) && serial in c.pending.outcomes
    ensures var q := Step(c, codecs, a).pending;
            serial in q.outcomes && q.outcomes[serial] == c.pending.outcomes[serial]
  {
    match a
    case DoWrite(n, ok, part, reason) => if n < |c.calls| { WriteKeepsOutcome(c, codecs, n, ok, part, reason, serial); }
    case DoFrame(s) => if s < |c.sessions| { FrameKeepsOutcome(c, codecs, s, serial); }
    case DoFail(ids, now, cause) => P.FailEachLater(c.pending, ids, now, Failed(cause));
    case _ => OutcomesStay(c, codecs, a);
  }

  lemma WriteKeepsOutcome(c: Client, codecs: Codecs, n: nat, ok: bool, part: nat, reason: string, serial: nat)
    requires Inv(c, codecs) && serial in c.pending.outcomes && n < |c.calls|
    ensures var q := Write(c, n, codecs, ok, part, reason).pending;
            serial in q.outcomes && q.outcomes[serial] == c.pending.outcomes[serial]
  {
    PendingKeeps(c.pending, c.calls[n].Id(), Failure("send request failed: " + reason), serial);
  }

  lemma PendingKeeps(p: Pending, id: string, o: Outcome, serial: nat)
    requires P.Inv(p) && serial in p.outcomes
    ensures var q := P.Complete(p, id, o).0; serial in q.outcomes && q.outcomes[serial] == p.outcomes[serial]
  {
    P.NextLater(p, P.DoComplete(id, o));
  }

  lemma FrameKeepsOutcome(c: Client, codecs: Codecs, s: nat, serial: nat)
    requires Inv(c, codecs) && serial in c.pending.outcomes && s < |c.sessions|
    ensures var q := HandleFrame(c, s, codecs).pending;
            serial in q.outcomes && q.outcomes[serial] == c.pending.outcomes[serial]
  {
    var x := c.sessions[s];
    if Handles(x, codecs) {
      var r := codecs.responses.parse(x.unread[HEADER_BYTES..HEADER_BYTES + FirstFrame(x.unread).n]).value;
      HandledIs(c, codecs, s);
      PendingKeeps(c.pending, r.id, FromServer(s, r), serial);
    } else {
      NothingToHandle(c, codecs, s);
    }
  }

  lemma {:induction false} OutcomeKeptInRun(c: Client, codecs: Codecs, actions: seq<Action>, n: nat)
    requires Inv(c, codecs) && n < |c.calls| && c.calls[n].serial in c.pending.outcomes
    ensures var d := Run(c, codecs, actions);
            && Inv(d, codecs) && n < |d.calls| && d.calls[n].serial == c.calls[n].serial
            && d.calls[n].serial in d.pending.outcomes
            && d.pending.outcomes[d.calls[n].serial] == c.pending.outcomes[c.calls[n].serial]
    decreases |actions|
  {
    if |actions| > 0 {
      var d := Step(c, codecs, actions[0]);
      StepOk(c, codecs, actions[0]);
      CallStays(c, codecs, actions[0], n);
      OutcomeKept(c, codecs, actions[0], c.calls[n].serial);
      OutcomeKeptInRun(d, codecs, actions[1..], n);
    }
  }

  /** The failure at the end reaches a call exactly if it has no outcome. */
  lemma FailedAtEnd(c: Client, codecs: Codecs, n: nat, ids: seq<string>, cause: Cause)
    requires Inv(c, codecs) && n < |c.calls| && forall x :: x in c.pending.table ==> x in ids
    ensures var q := Fail(c, ids, None, cause).pending; var serial := c.calls[n].serial;
            && serial in q.outcomes
            && q.outcomes[serial] == if serial in c.pending.outcomes then c.pending.outcomes[serial] else Failed(cause)
  {
    var p, k := c.pending, c.calls[n];
    P.FailEachLater(p, ids, None, Failed(cause));
    if k.serial !in p.outcomes {
      Undone(c, codecs, n);
      P.FailAllClears(p, ids, Failed(cause), k.Id());
      P.FailEachKeeps(p, ids, None, Failed(cause));
      var q := P.FailEach(p, ids, None, Failed(cause));
      assert P.SlotOk(q.table[k.Id()], q.outcomes);
    }
  }

  /** Nothing left to handle: the frames handled are the readable ones of all that was received. */
  lemma AllHandled(c: Client, codecs: Codecs, s: nat)
    requires Inv(c, codecs) && s < |c.sessions| && !Handles(c.sessions[s], codecs)
    requires Readable(codecs.responses, c.sessions[s].frames) == |c.sessions[s].frames|
    ensures var x := c.sessions[s]; var all := Parse(x.received).bodies;
            x.frames == all[..Readable(codecs.responses, all)]
  {
    var x := c.sessions[s];
    assert SessionOk(x, c.calls, codecs);
    var more := Parse(x.unread).bodies;
    if FirstFrame(x.unread).Whole? {
      assert more[0] == x.unread[HEADER_BYTES..HEADER_BYTES + FirstFrame(x.unread).n];
      ReadableAppend(codecs.responses, x.frames, more);
    } else {
      assert x.frames + more == x.frames;
    }
  }

  lemma {:induction false} HandledAreReadable(c: Client, codecs: Codecs, actions: seq<Action>, s: nat)
    requires forall t :: 0 <= t < |c.sessions| ==>
             Readable(codecs.responses, c.sessions[t].frames) == |c.sessions[t].frames|
    ensures var d := Run(c, codecs, actions);
            s < |d.sessions| ==> Readable(codecs.responses, d.sessions[s].frames) == |d.sessions[s].frames|
    decreases |actions|
  {
    if |actions| > 0 {
      var a, d := actions[0], Step(c, codecs, actions[0]);
      forall t | 0 <= t < |d.sessions|
        ensures Readable(codecs.responses, d.sessions[t].frames) == |d.sessions[t].frames| {
        ReadableStep(c, codecs, a, t);
      }
      HandledAreReadable(d, codecs, actions[1..], s);
    }
  }

  lemma ReadableStep(c: Client, codecs: Codecs, a: Action, t: nat)
    requires forall t :: 0 <= t < |c.sessions| ==>
             Readable(codecs.responses, c.sessions[t].frames) == |c.sessions[t].frames|
    requires t < |Step(c, codecs, a).sessions|
    ensures var d := Step(c, codecs, a); Readable(codecs.responses, d.sessions[t].frames) == |d.sessions[t].frames|
  {
    if a == DoFrame(t) {
      ReadableFrame(c, codecs, t);
    } else if t < |c.sessions| {
      FramesStay(c, codecs, a, t);
    } else {
      assert a == DoConnect;
    }
  }

  lemma ReadableFrame(c: Client, codecs: Codecs, t: nat)
    requires t < |c.sessions| && Readable(codecs.responses, c.sessions[t].frames) == |c.sessions[t].frames|
    ensures var d := HandleFrame(c, t, codecs);
            t < |d.sessions| && Readable(codecs.responses, d.sessions[t].frames) == |d.sessions[t].frames|
  {
    var x := c.sessions[t];
    if Handles(x, codecs) {
      var body := x.unread[HEADER_BYTES..HEADER_BYTES + FirstFrame(x.unread).n];
      HandledIs(c, codecs, t);
      HandleSnoc(c.pending, t, codecs.responses, x.frames, body, codecs.responses.parse(body).value);
    } else {
      NothingToHandle(c, codecs, t);
    }
  }

  /** Orderly end of a connection.  `early` is any run, after which call n has been written and has no outcome; in
      `late` callers go on, more arrives and the dispatcher handles frames, until it has nothing more to handle; then
      every call in the table is failed.  Whatever happens later, if call n returns, it returns the first response for
      it that had arrived on the connection since, and the failure exactly if none had. */
  lemma OrderlyEof(codecs: Codecs, early: seq<Action>, late: seq<Action>, more: seq<Action>, n: nat, s: nat,
                   ids: seq<string>, cause: Cause)
    requires var c := Run(Init, codecs, early);
             && n < |c.calls| && c.calls[n].phase != Added && c.calls[n].serial !in c.pending.outcomes
                && s < |c.sessions|
    requires var c := Run(Init, codecs, early); AllOrderly(c, codecs, late, s, c.calls[n].Id())
    requires var d := Run(Run(Init, codecs, early), codecs, late);
             s < |d.sessions| && !Handles(d.sessions[s], codecs) && forall x :: x in d.pending.table ==> x in ids
    ensures var c := Run(Init, codecs, early);
            var d := Run(c, codecs, late);
            var e := Run(Step(d, codecs, DoFail(ids, None, cause)), codecs, more);
            var all := Parse(d.sessions[s].received).bodies;
            var readable := Readable(codecs.responses, all);
            && |c.sessions[s].frames| <= readable && n < |e.calls|
            && (e.calls[n].phase.Returned? ==>
                  e.calls[n].phase.outcome
                  == match FirstFor(codecs.responses, all[|c.sessions[s].frames|..readable], c.calls[n].Id())
                     case Some(r) => FromServer(s, r)
                     case None => Failed(cause))
  {
    var c := Run(Init, codecs, early);
    var d := Run(c, codecs, late);
    var k := |c.sessions[s].frames|;
    EveryRun(codecs, early);
    assert c.sessions[s].frames[k..] == [];
    HeardRun(c, codecs, late, n, s, k);
    RunOk(c, codecs, late);
    ReadableFromStart(codecs, early, late, s);
    AllHandled(d, codecs, s);
    SameCall(c, codecs, late, n);
    AfterTheEnd(d, codecs, more, n, ids, cause);
    var all := Parse(d.sessions[s].received).bodies;
    assert d.sessions[s].frames[k..] == all[k..Readable(codecs.responses, all)];
  }

  lemma ReadableFromStart(codecs: Codecs, early: seq<Action>, late: seq<Action>, s: nat)
    ensures var d := Run(Run(Init, codecs, early), codecs, late);
            s < |d.sessions| ==> Readable(codecs.responses, d.sessions[s].frames) == |d.sessions[s].frames|
  {
    var c := Run(Init, codecs, early);
    forall t | 0 <= t < |c.sessions|
      ensures Readable(codecs.responses, c.sessions[t].frames) == |c.sessions[t].frames| {
      HandledAreReadable(Init, codecs, early, t);
    }
    HandledAreReadable(c, codecs, late, s);
  }

  lemma {:induction false} SameCall(c: Client, codecs: Codecs, actions: seq<Action>, n: nat)
    requires n < |c.calls|
    ensures var d := Run(c, codecs, actions);
            n < |d.calls| && d.calls[n].(phase := Added) == c.calls[n].(phase := Added)
    decreases |actions|
  {
    if |actions| > 0 {
      CallStays(c, codecs, actions[0], n);
      SameCall(Step(c, codecs, actions[0]), codecs, actions[1..], n);
    }
  }

  /** What a call returns after the end is its outcome before it, or the failure. */
  lemma AfterTheEnd(c: Client, codecs: Codecs, more: seq<Action>, n: nat, ids: seq<string>, cause: Cause)
    requires Inv(c, codecs) && n < |c.calls| && forall x :: x in c.pending.table ==> x in ids
    ensures var e := Run(Step(c, codecs, DoFail(ids, None, cause)), codecs, more); var serial := c.calls[n].serial;
            && n < |e.calls|
            && (e.calls[n].phase.Returned? ==>
                  e.calls[n].phase.outcome
                  == if serial in c.pending.outcomes then c.pending.outcomes[serial] else Failed(cause))
  {
    var d := EndStep(c, codecs, n, ids, cause);
    OutcomeKeptInRun(d, codecs, more, n);
    if Run(d, codecs, more).calls[n].phase.Returned? { ReturnedIs(Run(d, codecs, more), codecs, n); }
  }

  lemma EndStep(c: Client, codecs: Codecs, n: nat, ids: seq<string>, cause: Cause) returns (d: Client)
    requires Inv(c, codecs) && n < |c.calls| && forall x :: x in c.pending.table ==> x in ids
    ensures d == Step(c, codecs, DoFail(ids, None, cause)) && Inv(d, codecs) && d.calls == c.calls
    ensures var serial := c.calls[n].serial;
            && serial in d.pending.outcomes
            && d.pending.outcomes[serial]
            == if serial in c.pending.outcomes then c.pending.outcomes[serial] else Failed(cause)
  {
    d := Step(c, codecs, DoFail(ids, None, cause));
    FailedAtEnd(c, codecs, n, ids, cause);
    StepOk(c, codecs, DoFail(ids, None, cause));
  }

  lemma ReturnedIs(c: Client, codecs: Codecs, n: nat)
    requires Inv(c, codecs) && n < |c.calls| && c.calls[n].phase.Returned?
    ensures c.calls[n].serial in c.pending.outcomes && c.pending.outcomes[c.calls[n].serial] == c.calls[n].phase.outcome
  {
    assert CallOk(c.pending, c.calls[n], n);
  }

  /** A waiting call that is past its deadline when `FailTimedOut` comes by returns the failure, whatever happens
      later. */
  lemma TimedOutCallFails(codecs: Codecs, early: seq<Action>, more: seq<Action>, n: nat, ids: seq<string>, now: nat,
                          cause: Cause)
    requires var c := Run(Init, codecs, early);
             && n < |c.calls| && c.calls[n].phase == Waiting && Bound(c.pending, c.calls[n], n)
             && c.pending.table[c.calls[n].Id()].deadline <= now && c.calls[n].Id() in ids
    ensures var c := Run(Init, codecs, early);
            var e := Run(Step(c, codecs, DoFail(ids, Some(now), cause)), codecs, more);
            && n < |e.calls| && c.calls[n].serial in e.pending.outcomes
            && e.pending.outcomes[c.calls[n].serial] == Failed(cause)
            && (e.calls[n].phase.Returned? ==> e.calls[n].phase.outcome == Failed(cause))
  {
    EveryRun(codecs, early);
    var c := Run(Init, codecs, early);
    var d := TimeoutStep(c, codecs, n, ids, now, cause);
    OutcomeKeptInRun(d, codecs, more, n);
    if Run(d, codecs, more).calls[n].phase.Returned? { ReturnedIs(Run(d, codecs, more), codecs, n); }
  }

  lemma TimeoutStep(c: Client, codecs: Codecs, n: nat, ids: seq<string>, now: nat, cause: Cause) returns (d: Client)
    requires Inv(c, codecs) && n < |c.calls| && Bound(c.pending, c.calls[n], n) && c.calls[n].Id() in ids
    requires c.pending.table[c.calls[n].Id()].deadline <= now
    ensures d == Step(c, codecs, DoFail(ids, Some(now), cause)) && Inv(d, codecs) && d.calls == c.calls
    ensures c.calls[n].serial in d.pending.outcomes && d.pending.outcomes[c.calls[n].serial] == Failed(cause)
  {
    d := Step(c, codecs, DoFail(ids, Some(now), cause));
    StepOk(c, codecs, DoFail(ids, Some(now), cause));
    var p, id := c.pending, c.calls[n].Id();
    assert P.SlotOk(p.table[id], p.outcomes);
    P.FailTimedOutExactly(p, ids, now, Failed(cause), id);
    assert P.SlotOk(d.pending.table[id], d.pending.outcomes);
  }

  // ---------------------------------------------------------------------------------------
  // The loop of the dispatcher is such a run
  // ---------------------------------------------------------------------------------------

  function FrameSteps(s: nat, n: nat): seq<Action> { seq(n, _ => DoFrame(s)) }

  lemma {:induction false} RunSnoc(c: Client, codecs: Codecs, actions: seq<Action>, a: Action)
    ensures Run(c, codecs, actions + [a]) == Step(Run(c, codecs, actions), codecs, a)
    decreases |actions|
  {
    if |actions| == 0 {
      assert actions + [a] == [a];
      assert Run(c, codecs, [a]) == Run(Step(c, codecs, a), codecs, [a][1..]);
    } else {
      assert (actions + [a])[1..] == actions[1..] + [a];
      RunSnoc(Step(c, codecs, actions[0]), codecs, actions[1..], a);
    }
  }

  /** Handling the first n readable bodies of what is unread, as `HandleReadableFrames` does, is n steps of the run. */
  lemma {:induction false} LoopIsFrameSteps(c: Client, codecs: Codecs, s: nat, n: nat)
    requires s < |c.sessions| && n <= Readable(codecs.responses, Parse(c.sessions[s].unread).bodies)
    ensures var d := Run(c, codecs, FrameSteps(s, n)); var bodies := Parse(c.sessions[s].unread).bodies;
            && s < |d.sessions| && d.pending == HandleBodies(c.pending, s, codecs.responses, bodies[..n])
            && OnTheWay(c.sessions[s].unread, bodies[..n], d.sessions[s].unread)
    decreases n
  {
    var unread := c.sessions[s].unread;
    var bodies := Parse(unread).bodies;
    if n == 0 {
      assert bodies[..0] == [];
      StartOnTheWay(unread);
    } else {
      LoopIsFrameSteps(c, codecs, s, n - 1);
      ReadableParses(codecs.responses, bodies, n - 1);
      OneMoreFrame(c, codecs, s, unread, bodies, n - 1);
    }
  }

  lemma OneMoreFrame(c: Client, codecs: Codecs, s: nat, unread: seq<byte>, bodies: seq<seq<byte>>, n: nat)
    requires bodies == Parse(unread).bodies && n < |bodies| && codecs.responses.parse(bodies[n]).Some?
    requires var d := Run(c, codecs, FrameSteps(s, n));
             && s < |d.sessions| && d.pending == HandleBodies(c.pending, s, codecs.responses, bodies[..n])
             && OnTheWay(unread, bodies[..n], d.sessions[s].unread)
    ensures var d := Run(c, codecs, FrameSteps(s, n + 1));
            && s < |d.sessions| && d.pending == HandleBodies(c.pending, s, codecs.responses, bodies[..n + 1])
            && OnTheWay(unread, bodies[..n + 1], d.sessions[s].unread)
  {
    assert FrameSteps(s, n + 1) == FrameSteps(s, n) + [DoFrame(s)];
    RunSnoc(c, codecs, FrameSteps(s, n), DoFrame(s));
    HandleNext(c.pending, s, codecs.responses, bodies, n);
    OneFrameStep(Run(c, codecs, FrameSteps(s, n)), codecs, s, unread, bodies, n);
  }

  lemma HandleNext(p: Pending, s: nat, codec: Codec<Response>, bodies: seq<seq<byte>>, n: nat)
    requires n < |bodies| && codec.parse(bodies[n]).Some?
    ensures HandleBodies(p, s, codec, bodies[..n + 1])
         == OneResponse(HandleBodies(p, s, codec, bodies[..n]), s, codec.parse(bodies[n]).value)
  {
    assert bodies[..n + 1][..n] == bodies[..n];
  }

  lemma {:induction false} ReadableParses(codec: Codec<Response>, bodies: seq<seq<byte>>, i: nat)
    requires i < Readable(codec, bodies)
    ensures codec.parse(bodies[i]).Some?
    decreases |bodies|
  {
    if i < Readable(codec, bodies[..|bodies| - 1]) { ReadableParses(codec, bodies[..|bodies| - 1], i); }
  }

  lemma OneFrameStep(c: Client, codecs: Codecs, s: nat, unread: seq<byte>, bodies: seq<seq<byte>>, n: nat)
    requires bodies == Parse(unread).bodies && s < |c.sessions| && n < |bodies|
    requires codecs.responses.parse(bodies[n]).Some? && OnTheWay(unread, bodies[..n], c.sessions[s].unread)
    ensures var d := HandleFrame(c, s, codecs);
            && s < |d.sessions| && d.pending == OneResponse(c.pending, s, codecs.responses.parse(bodies[n]).value)
            && OnTheWay(unread, bodies[..n + 1], d.sessions[s].unread)
  {
    var left := c.sessions[s].unread;
    OneBodyOff(bodies, n, unread, left);
    var len := FirstFrame(left).n;
    var d := HandleFrame(c, s, codecs);
    assert d.sessions[s].unread == left[HEADER_BYTES + len..];
  }

  lemma OneBodyOff(bodies: seq<seq<byte>>, n: nat, all: seq<byte>, unread: seq<byte>)
    requires bodies == Parse(all).bodies && n < |bodies| && OnTheWay(all, bodies[..n], unread)
    ensures var head := FirstFrame(unread);
            && head.Whole? && bodies[n] == unread[HEADER_BYTES..HEADER_BYTES + head.n]
            && OnTheWay(all, bodies[..n + 1], unread[HEADER_BYTES + head.n..])
  {
    NextBody(bodies, n, all, unread);
    HeadBody(unread);
    TakeOne(all, bodies[..n], unread);
    assert bodies[..n] + [bodies[n]] == bodies[..n + 1];
  }

  lemma NextBody(bodies: seq<seq<byte>>, n: nat, all: seq<byte>, unread: seq<byte>)
    requires bodies == Parse(all).bodies && n < |bodies| && OnTheWay(all, bodies[..n], unread)
    ensures |Parse(unread).bodies| > 0 && Parse(unread).bodies[0] == bodies[n]
  {
    var rest := Parse(unread).bodies;
    assert bodies == bodies[..n] + rest;
    assert (bodies[..n] + rest)[n] == rest[0];
  }

  lemma HeadBody(unread: seq<byte>)
    requires |Parse(unread).bodies| > 0
    ensures FirstFrame(unread).Whole?
    ensures Parse(unread).bodies[0] == unread[HEADER_BYTES..HEADER_BYTES + FirstFrame(unread).n]
  {
  }
}
