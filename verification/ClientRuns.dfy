/** Every run of a client. */
module ClientRuns {
  import opened Common
  import opened Framing
  import opened Rpc
  import P = PendingCalls
  import opened ClientCalls
  import opened ClientProofs
  import opened ClientSteps

  // ---------------------------------------------------------------------------------------
  // Beginning a call
  // ---------------------------------------------------------------------------------------

  /** A new id is never in the table: `Add` never refuses it. */
  lemma FreshId(c: Client)
    requires Numbered(c.calls, c.nextId, c.pending.nextSerial) && Owned(c.pending.table, c.calls)
    ensures Decimal(c.nextId + 1) !in c.pending.table
  {
    forall id | id in c.pending.table ensures id != Decimal(c.nextId + 1) {
      var n: nat :| Owns(c.calls, n, id, c.pending.table[id].serial);
      if id == Decimal(c.nextId + 1) { DecimalInjective(c.calls[n].number, c.nextId + 1); }
    }
  }

  /** Ids of calls never look like those of heartbeats. */
  lemma NotAHeartbeatId(n: nat)
    ensures !IsHeartbeatId(Decimal(n))
  {
    DecimalStartsWithDigit(n);
    assert HEARTBEAT_PREFIX[0] == 'h';
  }

  lemma BeginOthers(c: Client, id: string)
    requires Tables(c) && id !in c.pending.table
    ensures var q := P.Add(c.pending, id).0; CallsOk(q, c.calls) && HeldOk(q.table, c.calls) && P.Unused(q, |c.calls|)
  {
    var p, q := c.pending, P.Add(c.pending, id).0;
    HeldChanged(p.table, c.calls, id, P.FreshSlot(p.nextSerial));
    forall n | 0 <= n < |c.calls| ensures CallOk(q, c.calls[n], n) {
      assert CallOk(p, c.calls[n], n);
      BeginOther(p, id, c.calls[n], n);
    }
    forall x | x in p.table ensures !P.Holds(p.table[x], |c.calls|) {
      assert P.Holds(p.table[x], |c.calls|) ==> Waits(c.calls, x, |c.calls|);
    }
  }

  lemma BeginOther(p: Pending, id: string, k: Call, n: nat)
    requires CallOk(p, k, n) && id !in p.table
    ensures CallOk(P.Add(p, id).0, k, n)
  {
    var q := P.Add(p, id).0;
    assert Mailed(p, k, n) <==> Mailed(q, k, n);
  }

  // What holds of the calls holds of one call more.

  lemma OwnedMore(p: Pending, calls: seq<Call>, id: string, k: Call)
    requires Owned(p.table, calls) && id !in p.table && k.Id() == id && k.serial == p.nextSerial
    ensures Owned(P.Add(p, id).0.table, calls + [k])
  {
    var t, more := P.Add(p, id).0.table, calls + [k];
    forall x | x in t ensures exists n: nat :: Owns(more, n, x, t[x].serial) {
      if x == id {
        assert Owns(more, |calls|, id, p.nextSerial);
      } else {
        var n: nat :| Owns(calls, n, x, p.table[x].serial);
        assert Owns(more, n, x, p.table[x].serial);
      }
    }
  }

  lemma WaitersMore(p: Pending, calls: seq<Call>, k: Call)
    requires WaitersOk(p, calls)
    ensures WaitersOk(p, calls + [k])
  {
    forall x, w: nat | x in p.table && P.Holds(p.table[x], w) ensures Waits(calls + [k], x, w) {
      assert Waits(calls, x, w);
    }
  }

  lemma NumberedMore(calls: seq<Call>, nextId: nat, nextSerial: nat, k: Call)
    requires Numbered(calls, nextId, nextSerial) && k.number == nextId + 1 && k.serial == nextSerial
             && k.request.id == k.Id()
    ensures Numbered(calls + [k], nextId + 1, nextSerial + 1)
  {
  }

  lemma CallsMore(p: Pending, calls: seq<Call>, k: Call)
    requires CallsOk(p, calls) && CallOk(p, k, |calls|)
    ensures CallsOk(p, calls + [k])
  {
  }

  lemma BeginTables(c: Client, id: string, k: Call)
    requires Tables(c) && id !in c.pending.table && id == Decimal(c.nextId + 1) && k.phase == Added
    requires k.number == c.nextId + 1 && k.serial == c.pending.nextSerial && k.request.id == id
    ensures Tables(Client(P.Add(c.pending, id).0, c.nextId + 1, c.calls + [k], c.sessions))
  {
    var q := P.Add(c.pending, id).0;
    BeginOthers(c, id);
    P.AddKeeps(c.pending, id);
    OwnedMore(c.pending, c.calls, id, k);
    WaitersMore(q, c.calls, k);
    NumberedMore(c.calls, c.nextId, c.pending.nextSerial, k);
    CallsMore(q, c.calls, k);
  }

  lemma BeginStep(c: Client, codecs: Codecs, co: bool, service: string, operation: string, payload: seq<byte>)
    requires Inv(c, codecs)
    ensures Inv(Begin(c, co, service, operation, payload), codecs)
    ensures P.Add(c.pending, Decimal(c.nextId + 1)).1
  {
    var id := Decimal(c.nextId + 1);
    var k := Call(co, c.nextId + 1, c.pending.nextSerial, Request(id, service, operation, payload), Added);
    var d := Begin(c, co, service, operation, payload);
    FreshId(c);
    assert d.calls == c.calls + [k];
    BeginTables(c, id, k);
    forall s | 0 <= s < |d.sessions| ensures SessionOk(d.sessions[s], d.calls, codecs) {
      OursStill(c.sessions[s], c.calls, d.calls, codecs);
    }
  }

  // ---------------------------------------------------------------------------------------
  // Connections
  // ---------------------------------------------------------------------------------------

  /** Sessions may be added, and their frames may grow. */
  predicate FramesGrow(a: seq<Session>, b: seq<Session>)
  {
    |a| <= |b| && forall s :: 0 <= s < |a| ==> a[s].frames <= b[s].frames
  }

  lemma SourceLater(o: Outcome, id: string, a: seq<Session>, b: seq<Session>, codecs: Codecs)
    requires SourceOk(o, id, a, codecs) && FramesGrow(a, b)
    ensures SourceOk(o, id, b, codecs)
  {
    if o.Remote? {
      var x, y := a[o.session], b[o.session];
      var j :| 0 <= j < |x.frames| && codecs.responses.parse(x.frames[j]) == Some(o.response);
      assert y.frames[j] == x.frames[j];
    }
  }

  lemma SessionsStep(c: Client, codecs: Codecs, sessions: seq<Session>, nextId: nat)
    requires Inv(c, codecs) && FramesGrow(c.sessions, sessions) && SessionsOk(sessions, c.calls, codecs)
             && c.nextId <= nextId
    ensures Inv(c.(sessions := sessions, nextId := nextId), codecs)
  {
    forall n | 0 <= n < |c.calls| && c.calls[n].serial in c.pending.outcomes
      ensures SourceOk(c.pending.outcomes[c.calls[n].serial], c.calls[n].Id(), sessions, codecs)
    {
      SourceLater(c.pending.outcomes[c.calls[n].serial], c.calls[n].Id(), c.sessions, sessions, codecs);
    }
  }

  lemma SessionsChanged(sessions: seq<Session>, i: nat, x: Session, calls: seq<Call>, codecs: Codecs)
    requires SessionsOk(sessions, calls, codecs) && i < |sessions| && SessionOk(x, calls, codecs)
    requires sessions[i].frames <= x.frames
    ensures SessionsOk(sessions[i := x], calls, codecs) && FramesGrow(sessions, sessions[i := x])
  {
  }

  lemma OneSession(c: Client, codecs: Codecs, i: nat, x: Session, nextId: nat)
    requires Inv(c, codecs) && i < |c.sessions| && SessionOk(x, c.calls, codecs) && c.sessions[i].frames <= x.frames
    requires c.nextId <= nextId
    ensures Inv(c.(sessions := c.sessions[i := x], nextId := nextId), codecs)
  {
    SessionsChanged(c.sessions, i, x, c.calls, codecs);
    SessionsStep(c, codecs, c.sessions[i := x], nextId);
  }

  lemma SessionWritten(x: Session, body: seq<byte>, calls: seq<Call>, codecs: Codecs)
    requires SessionOk(x, calls, codecs) && ValidLength(|body|) && Ours(body, calls, codecs)
    ensures SessionOk(Put(x, body), calls, codecs)
  {
    assert (x.bodies + [body])[..|x.bodies|] == x.bodies;
    assert Wholes(x.bodies) + [] == Wholes(x.bodies);
  }

  lemma SessionBroken(x: Session, part: seq<byte>, open: bool, calls: seq<Call>, codecs: Codecs)
    requires SessionOk(x, calls, codecs) && Unfinished(part)
    ensures SessionOk(Break(x, part).(open := open), calls, codecs)
  {
    assert Wholes(x.bodies) + [] == Wholes(x.bodies);
  }

  lemma ConnectStep(c: Client, codecs: Codecs)
    requires Inv(c, codecs)
    ensures Inv(Connect(c), codecs)
  {
    StartOnTheWay([]);
    SessionsStep(c, codecs, Connect(c).sessions, c.nextId);
  }

  lemma WrittenStep(c: Client, codecs: Codecs, body: seq<byte>, nextId: nat)
    requires Inv(c, codecs) && CanWrite(c) && ValidLength(|body|) && Ours(body, c.calls, codecs) && c.nextId <= nextId
    ensures Inv(Written(c, body).(nextId := nextId), codecs)
  {
    WrittenSessions(c, codecs, body);
    SessionsStep(c, codecs, Written(c, body).sessions, nextId);
  }

  lemma WrittenSessions(c: Client, codecs: Codecs, body: seq<byte>)
    requires SessionsOk(c.sessions, c.calls, codecs) && CanWrite(c)
    requires ValidLength(|body|) && Ours(body, c.calls, codecs)
    ensures SessionsOk(Written(c, body).sessions, c.calls, codecs) && FramesGrow(c.sessions, Written(c, body).sessions)
  {
    var after := Written(c, body).sessions;
    forall s | 0 <= s < |after| ensures SessionOk(after[s], c.calls, codecs) { WrittenAt(c, codecs, body, s); }
  }

  lemma WrittenAt(c: Client, codecs: Codecs, body: seq<byte>, s: nat)
    requires SessionsOk(c.sessions, c.calls, codecs) && CanWrite(c)
    requires ValidLength(|body|) && Ours(body, c.calls, codecs)
    requires s < |c.sessions|
    ensures SessionOk(Written(c, body).sessions[s], c.calls, codecs)
  {
    if s == |c.sessions| - 1 { SessionWritten(c.sessions[s], body, c.calls, codecs); }
  }

  lemma BrokenOffStep(c: Client, codecs: Codecs, part: seq<byte>)
    requires Inv(c, codecs) && Unfinished(part)
    ensures Inv(BrokenOff(c, part), codecs)
  {
    if CanWrite(c) {
      var i := |c.sessions| - 1;
      SessionBroken(c.sessions[i], part, false, c.calls, codecs);
      OneSession(c, codecs, i, Break(c.sessions[i], part).(open := false), c.nextId);
    }
  }

  lemma ArriveStep(c: Client, codecs: Codecs, s: nat, bytes: seq<byte>)
    requires Inv(c, codecs) && s < |c.sessions|
    ensures Inv(Arrive(c, s, bytes), codecs)
  {
    var x := c.sessions[s];
    assert SessionOk(x, c.calls, codecs);
    MoreOnTheWay(x.received, x.frames, x.unread, bytes);
    OneSession(c, codecs, s, x.(received := x.received + bytes, unread := x.unread + bytes), c.nextId);
  }

  lemma HeartbeatIs(c: Client, codecs: Codecs, ok: bool, part: nat)
    ensures var body := codecs.requests.serialise(HeartbeatRequest(c.nextId + 1));
            ok && CanWrite(c) && ValidLength(|body|) ==>
              SendHeartbeat(c, codecs, ok, part) == Written(c, body).(nextId := c.nextId + 1)
  {
  }

  lemma HeartbeatStep(c: Client, codecs: Codecs, ok: bool, part: nat)
    requires Inv(c, codecs)
    ensures Inv(SendHeartbeat(c, codecs, ok, part), codecs)
  {
    var body := codecs.requests.serialise(HeartbeatRequest(c.nextId + 1));
    if ok && CanWrite(c) && ValidLength(|body|) {
      assert Ours(body, c.calls, codecs);
      WrittenStep(c, codecs, body, c.nextId + 1);
      HeartbeatIs(c, codecs, ok, part);
    } else if CanWrite(c) {
      CutIsUnfinished(body, part);
      TornHeartbeatStep(c, codecs, Cut(body, part));
    } else {
      SessionsStep(c, codecs, c.sessions, c.nextId + 1);
    }
  }

  lemma TornHeartbeatStep(c: Client, codecs: Codecs, part: seq<byte>)
    requires Inv(c, codecs) && CanWrite(c) && Unfinished(part)
    ensures var i := |c.sessions| - 1;
            Inv(c.(sessions := c.sessions[i := Break(c.sessions[i], part)], nextId := c.nextId + 1), codecs)
  {
    var i := |c.sessions| - 1;
    SessionBroken(c.sessions[i], part, true, c.calls, codecs);
    assert Break(c.sessions[i], part) == Break(c.sessions[i], part).(open := true);
    OneSession(c, codecs, i, Break(c.sessions[i], part), c.nextId + 1);
  }

  // ---------------------------------------------------------------------------------------
  // Writing a request
  // ---------------------------------------------------------------------------------------

  lemma SentStep(c: Client, codecs: Codecs, n: nat)
    requires Inv(c, codecs) && n < |c.calls| && c.calls[n].phase == Added && CanWrite(c)
    requires ValidLength(|codecs.requests.serialise(c.calls[n].request)|)
    ensures Inv(SetPhase(Written(c, codecs.requests.serialise(c.calls[n].request)), n, Sent), codecs)
  {
    var body := codecs.requests.serialise(c.calls[n].request);
    assert Ours(body, c.calls, codecs);
    WrittenStep(c, codecs, body, c.nextId);
    var d := Written(c, body);
    assert d == d.(nextId := c.nextId);
    assert CallOk(d.pending, d.calls[n], n);
    PhaseNotWoken(d, n);
    PhaseStep(d, codecs, n, Sent);
  }

  /** Completing the slot of a call that nobody waits for leaves it in the table, done. */
  lemma CompleteAtRest(p: Pending, k: Call, o: Outcome)
    requires P.Inv(p) && AtRest(p, k)
    ensures DoneAtRest(P.Complete(p, k.Id(), o).0, k)
  {
    assert P.SlotOk(p.table[k.Id()], p.outcomes);
    if !p.table[k.Id()].done { SettleAtRest(p, k.Id(), o, k); }
  }

  lemma SendFailedStep(c: Client, codecs: Codecs, n: nat, message: string)
    requires Inv(c, codecs) && n < |c.calls| && c.calls[n].phase == Added
    ensures var p := P.Complete(c.pending, c.calls[n].Id(), Failure(message)).0;
            Inv(SetPhase(c.(pending := p), n, SendFailed), codecs)
  {
    var k, o := c.calls[n], Failure(message);
    var d := c.(pending := P.Complete(c.pending, k.Id(), o).0);
    assert CallOk(c.pending, k, n);
    CompleteStep(c, codecs, k.Id(), o);
    CompleteAtRest(c.pending, k, o);
    assert CallOk(d.pending, k, n);
    PhaseNotWoken(d, n);
    PhaseStep(d, codecs, n, SendFailed);
  }

  lemma WriteStep(c: Client, codecs: Codecs, n: nat, ok: bool, part: nat, reason: string)
    requires Inv(c, codecs) && n < |c.calls|
    ensures Inv(Write(c, n, codecs, ok, part, reason), codecs)
  {
    var k := c.calls[n];
    var body := codecs.requests.serialise(k.request);
    if k.phase == Added {
      if ok && CanWrite(c) && ValidLength(|body|) {
        SentStep(c, codecs, n);
      } else {
        CutIsUnfinished(body, part);
        BrokenOffStep(c, codecs, Cut(body, part));
        SendFailedStep(BrokenOff(c, Cut(body, part)), codecs, n, "send request failed: " + reason);
      }
    }
  }

  lemma CutIsUnfinished(body: seq<byte>, part: nat)
    ensures Unfinished(Cut(body, part))
  {
    if ValidLength(|body|) && part < |Frame(body)| { assert |Frame(body)[..part]| == part; }
  }

  // ---------------------------------------------------------------------------------------
  // Handling a response
  // ---------------------------------------------------------------------------------------

  lemma FrameRead(x: Session, n: nat, r: Response, calls: seq<Call>, codecs: Codecs)
    requires SessionOk(x, calls, codecs) && FirstFrame(x.unread) == Whole(n)
    requires codecs.responses.parse(x.unread[HEADER_BYTES..HEADER_BYTES + n]) == Some(r)
    ensures var body := x.unread[HEADER_BYTES..HEADER_BYTES + n];
            var y := x.(frames := x.frames + [body], unread := x.unread[HEADER_BYTES + n..]);
            SessionOk(y, calls, codecs) && Read(y, r, codecs) && x.frames <= y.frames
  {
    TakeOne(x.received, x.frames, x.unread);
    var body := x.unread[HEADER_BYTES..HEADER_BYTES + n];
    assert (x.frames + [body])[|x.frames|] == body;
  }

  /** A frame that the dispatcher can handle is at the front. */
  predicate Handles(x: Session, codecs: Codecs)
  {
    var h := FirstFrame(x.unread);
    h.Whole? && codecs.responses.parse(x.unread[HEADER_BYTES..HEADER_BYTES + h.n]).Some?
  }

  lemma NothingToHandle(c: Client, codecs: Codecs, s: nat)
    requires s < |c.sessions| && !Handles(c.sessions[s], codecs)
    ensures HandleFrame(c, s, codecs) == c
  {
  }

  lemma FrameStep(c: Client, codecs: Codecs, s: nat)
    requires Inv(c, codecs) && s < |c.sessions|
    ensures Inv(HandleFrame(c, s, codecs), codecs)
  {
    if Handles(c.sessions[s], codecs) {
      var n := FirstFrame(c.sessions[s].unread).n;
      ResponseStep(c, codecs, s, n, codecs.responses.parse(c.sessions[s].unread[HEADER_BYTES..HEADER_BYTES + n]).value);
    } else {
      NothingToHandle(c, codecs, s);
    }
  }

  lemma ResponseStep(c: Client, codecs: Codecs, s: nat, n: nat, r: Response)
    requires Inv(c, codecs) && s < |c.sessions| && FirstFrame(c.sessions[s].unread) == Whole(n)
    requires codecs.responses.parse(c.sessions[s].unread[HEADER_BYTES..HEADER_BYTES + n]) == Some(r)
    ensures Inv(HandleFrame(c, s, codecs), codecs)
  {
    var d := TakenOff(c, codecs, s, n, r);
    if !IsHeartbeatId(r.id) { CompleteStep(d, codecs, r.id, FromServer(s, r)); }
    assert HandleFrame(c, s, codecs) == d.(pending := OneResponse(c.pending, s, r));
  }

  /** The frame is taken off the unread bytes, and its response not yet looked at. */
  lemma TakenOff(c: Client, codecs: Codecs, s: nat, n: nat, r: Response) returns (d: Client)
    requires Inv(c, codecs) && s < |c.sessions| && FirstFrame(c.sessions[s].unread) == Whole(n)
    requires codecs.responses.parse(c.sessions[s].unread[HEADER_BYTES..HEADER_BYTES + n]) == Some(r)
    ensures var x := c.sessions[s];
            d == c.(sessions := c.sessions[s := x.(frames := x.frames + [x.unread[HEADER_BYTES..HEADER_BYTES + n]],
                                                   unread := x.unread[HEADER_BYTES + n..])])
    ensures Inv(d, codecs) && Read(d.sessions[s], r, codecs)
  {
    var x := c.sessions[s];
    var body := x.unread[HEADER_BYTES..HEADER_BYTES + n];
    var y := x.(frames := x.frames + [body], unread := x.unread[HEADER_BYTES + n..]);
    FrameRead(x, n, r, c.calls, codecs);
    OneSession(c, codecs, s, y, c.nextId);
    d := c.(sessions := c.sessions[s := y]);
    assert d == d.(nextId := c.nextId);
  }

  // ---------------------------------------------------------------------------------------
  // Runs
  // ---------------------------------------------------------------------------------------

  lemma CallStepOk(c: Client, codecs: Codecs, a: Action)
    requires Inv(c, codecs) && (a.DoBegin? || a.DoWrite? || a.DoPopFailed? || a.DoBind? || a.DoPopResumed?)
    ensures Inv(Step(c, codecs, a), codecs)
  {
    match a
    case DoBegin(co, service, operation, payload) => BeginStep(c, codecs, co, service, operation, payload);
    case DoWrite(n, ok, part, reason) => if n < |c.calls| { WriteStep(c, codecs, n, ok, part, reason); }
    case DoPopFailed(n) => if n < |c.calls| { PopFailedStep(c, codecs, n); }
    case DoBind(n, deadline) => if n < |c.calls| { BindStep(c, codecs, n, deadline); }
    case DoPopResumed(n) => if n < |c.calls| { PopResumedStep(c, codecs, n); }
  }

  lemma LinkStepOk(c: Client, codecs: Codecs, a: Action)
    requires Inv(c, codecs) && (a.DoConnect? || a.DoDisconnect? || a.DoHeartbeat? || a.DoArrive?)
    ensures Inv(Step(c, codecs, a), codecs)
  {
    match a
    case DoConnect => ConnectStep(c, codecs);
    case DoDisconnect => BrokenOffStep(c, codecs, []);
    case DoHeartbeat(ok, part) => HeartbeatStep(c, codecs, ok, part);
    case DoArrive(s, bytes) => if s < |c.sessions| { ArriveStep(c, codecs, s, bytes); }
  }

  lemma WakeOk(c: Client, codecs: Codecs, i: nat)
    requires Inv(c, codecs)
    ensures Inv(Step(c, codecs, DoWake(i)), codecs)
  {
    if i < |c.pending.outbox| { WakeStep(c, codecs, i); }
  }

  lemma FrameOk(c: Client, codecs: Codecs, s: nat)
    requires Inv(c, codecs)
    ensures Inv(Step(c, codecs, DoFrame(s)), codecs)
  {
    if s < |c.sessions| { FrameStep(c, codecs, s); }
  }

  lemma FailOk(c: Client, codecs: Codecs, ids: seq<string>, now: Option<nat>, cause: Cause)
    requires Inv(c, codecs)
    ensures Inv(Step(c, codecs, DoFail(ids, now, cause)), codecs)
  {
    FailStep(c, codecs, ids, now, cause);
  }

  lemma DispatchStepOk(c: Client, codecs: Codecs, a: Action)
    requires Inv(c, codecs) && (a.DoWake? || a.DoFrame? || a.DoFail?)
    ensures Inv(Step(c, codecs, a), codecs)
  {
    if a.DoWake? { WakeOk(c, codecs, a.i); }
    else if a.DoFrame? { FrameOk(c, codecs, a.s); }
    else { FailOk(c, codecs, a.ids, a.now, a.cause); }
  }

  lemma StepOk(c: Client, codecs: Codecs, a: Action)
    requires Inv(c, codecs)
    ensures Inv(Step(c, codecs, a), codecs)
  {
    if a.DoBegin? || a.DoWrite? || a.DoPopFailed? || a.DoBind? || a.DoPopResumed? { CallStepOk(c, codecs, a); }
    else if a.DoConnect? || a.DoDisconnect? || a.DoHeartbeat? || a.DoArrive? { LinkStepOk(c, codecs, a); }
    else { DispatchStepOk(c, codecs, a); }
  }

  lemma {:induction false} RunOk(c: Client, codecs: Codecs, actions: seq<Action>)
    requires Inv(c, codecs)
    ensures Inv(Run(c, codecs, actions), codecs)
    decreases |actions|
  {
    if |actions| > 0 {
      StepOk(c, codecs, actions[0]);
      RunOk(Step(c, codecs, actions[0]), codecs, actions[1..]);
    }
  }

  lemma EmptyTables()
    ensures Tables(Init)
  {
    assert P.Init<Outcome>().table == map[];
  }

  lemma InitOk(codecs: Codecs)
    ensures Inv(Init, codecs)
  {
    EmptyTables();
    assert Init.calls == [] && Init.sessions == [];
  }

  lemma EveryRun(codecs: Codecs, actions: seq<Action>)
    ensures Inv(Run(Init, codecs, actions), codecs)
  {
    InitOk(codecs);
    RunOk(Init, codecs, actions);
  }

  /** In every run the paths meant for the impossible are impossible: a new id is never refused and never looks like a
      heartbeat's, a promise can always be bound, a coroutine is bound or finds its slot done, and whoever pops finds a
      result. */
  lemma DefensivePathsUnreachable(codecs: Codecs, actions: seq<Action>, n: nat, deadline: nat)
    requires n < |Run(Init, codecs, actions).calls|
    ensures var c := Run(Init, codecs, actions); var p := c.pending; var k := c.calls[n];
            && P.Add(p, Decimal(c.nextId + 1)).1 && !IsHeartbeatId(Decimal(c.nextId + 1))
            && (k.phase == Sent && !k.co ==> P.BindAsync(p, k.Id(), n, deadline).1)
            && (k.phase == Sent && k.co ==> P.BindCoroutine(p, k.Id(), n, deadline).1 in {P.Bound, P.AlreadyDone})
            && (k.phase == SendFailed || k.phase == Resumed ==> P.TryPop(p, k.Id()).1.Some?)
  {
    EveryRun(codecs, actions);
    var c := Run(Init, codecs, actions);
    FreshId(c);
    NotAHeartbeatId(c.nextId + 1);
    PopsFind(c, codecs, n);
    BindsFind(c, codecs, n, deadline);
  }

  lemma PopsFind(c: Client, codecs: Codecs, n: nat)
    requires Inv(c, codecs) && n < |c.calls|
    ensures var k := c.calls[n]; k.phase == SendFailed || k.phase == Resumed ==> P.TryPop(c.pending, k.Id()).1.Some?
  {
    PopFailedStep(c, codecs, n);
    PopResumedStep(c, codecs, n);
  }

  lemma BindsFind(c: Client, codecs: Codecs, n: nat, deadline: nat)
    requires Inv(c, codecs) && n < |c.calls|
    ensures var p, k := c.pending, c.calls[n];
            && (k.phase == Sent && !k.co ==> P.BindAsync(p, k.Id(), n, deadline).1)
            && (k.phase == Sent && k.co ==> P.BindCoroutine(p, k.Id(), n, deadline).1 in {P.Bound, P.AlreadyDone})
  {
    if c.calls[n].phase == Sent {
      if c.calls[n].co { BindCoStep(c, codecs, n, deadline); } else { BindAsyncStep(c, codecs, n, deadline); }
    }
  }

  /** What a call returns is the first outcome of its own slot: made by the client, or read from a response frame with
      the call's own id. */
  lemma ReturnsItsFirstOutcome(codecs: Codecs, actions: seq<Action>, n: nat)
    requires var c := Run(Init, codecs, actions); n < |c.calls| && c.calls[n].phase.Returned?
    ensures var c := Run(Init, codecs, actions); var k := c.calls[n];
            && k.serial in c.pending.outcomes && k.phase.outcome == c.pending.outcomes[k.serial]
            && SourceOk(k.phase.outcome, k.request.id, c.sessions, codecs)
  {
    EveryRun(codecs, actions);
    var c := Run(Init, codecs, actions);
    assert CallOk(c.pending, c.calls[n], n);
  }
}
