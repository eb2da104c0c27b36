/** How often a client writes the request of a call, over all its connections; and that it is the request asked for. */
module ClientOnce {
  import opened Common
  import opened Framing
  import opened Rpc
  import opened ClientCalls
  import opened ClientProofs
  import opened ClientRuns

  // ---------------------------------------------------------------------------------------
  // Counting
  // ---------------------------------------------------------------------------------------

  function Times(bodies: seq<seq<byte>>, body: seq<byte>): nat
  {
    if |bodies| == 0 then 0
    else Times(bodies[..|bodies| - 1], body) + if bodies[|bodies| - 1] == body then 1 else 0
  }

  /** How often a body was written whole, on all connections together. */
  function TimesOn(sessions: seq<Session>, body: seq<byte>): nat
  {
    if |sessions| == 0 then 0
    else TimesOn(sessions[..|sessions| - 1], body) + Times(sessions[|sessions| - 1].bodies, body)
  }

  predicate SameBodies(a: seq<Session>, b: seq<Session>)
  {
    |a| == |b| && forall s :: 0 <= s < |a| ==> a[s].bodies == b[s].bodies
  }

  lemma {:induction false} TimesOnSame(a: seq<Session>, b: seq<Session>, body: seq<byte>)
    requires SameBodies(a, b)
    ensures TimesOn(a, body) == TimesOn(b, body)
  {
    if |a| > 0 { TimesOnSame(a[..|a| - 1], b[..|b| - 1], body); }
  }

  lemma TimesOnPut(sessions: seq<Session>, written: seq<byte>, body: seq<byte>)
    requires |sessions| > 0
    ensures var i := |sessions| - 1;
            TimesOn(sessions[i := Put(sessions[i], written)], body)
            == TimesOn(sessions, body) + if written == body then 1 else 0
  {
    var i := |sessions| - 1;
    var more := sessions[i := Put(sessions[i], written)];
    assert more[..i] == sessions[..i];
    assert more[i].bodies[..|sessions[i].bodies|] == sessions[i].bodies;
  }

  lemma TimesOnConnect(sessions: seq<Session>, x: Session, body: seq<byte>)
    requires x.bodies == []
    ensures TimesOn(sessions + [x], body) == TimesOn(sessions, body)
  {
    assert (sessions + [x])[..|sessions|] == sessions;
  }

  lemma {:induction false} NotAmong(bodies: seq<seq<byte>>, body: seq<byte>)
    requires body !in bodies
    ensures Times(bodies, body) == 0
  {
    if |bodies| > 0 { NotAmong(bodies[..|bodies| - 1], body); }
  }

  lemma {:induction false} NowhereAmong(sessions: seq<Session>, body: seq<byte>)
    requires forall s :: 0 <= s < |sessions| ==> body !in sessions[s].bodies
    ensures TimesOn(sessions, body) == 0
  {
    if |sessions| > 0 {
      NotAmong(sessions[|sessions| - 1].bodies, body);
      NowhereAmong(sessions[..|sessions| - 1], body);
    }
  }

  /** An occurrence counts; */
  lemma {:induction false} Occurs(bodies: seq<seq<byte>>, i: nat)
    requires i < |bodies|
    ensures Times(bodies, bodies[i]) >= 1
  {
    if i < |bodies| - 1 { Occurs(bodies[..|bodies| - 1], i); }
  }

  /** two count twice, */
  lemma {:induction false} OccursTwice(bodies: seq<seq<byte>>, i: nat, j: nat)
    requires i < j < |bodies| && bodies[i] == bodies[j]
    ensures Times(bodies, bodies[i]) >= 2
  {
    var before := bodies[..|bodies| - 1];
    if j < |bodies| - 1 { OccursTwice(before, i, j); } else { Occurs(before, i); }
  }

  lemma {:induction false} OccursOn(sessions: seq<Session>, s: nat, body: seq<byte>)
    requires s < |sessions|
    ensures TimesOn(sessions, body) >= Times(sessions[s].bodies, body)
  {
    if s < |sessions| - 1 { OccursOn(sessions[..|sessions| - 1], s, body); }
  }

  /** on two connections too. */
  lemma {:induction false} OccursOnBoth(sessions: seq<Session>, s: nat, t: nat, body: seq<byte>)
    requires s < t < |sessions|
    ensures TimesOn(sessions, body) >= Times(sessions[s].bodies, body) + Times(sessions[t].bodies, body)
  {
    var before := sessions[..|sessions| - 1];
    if t < |sessions| - 1 { OccursOnBoth(before, s, t, body); } else { OccursOn(before, s, body); }
  }

  /** What was written at most once was written in one place. */
  lemma OnePlace(sessions: seq<Session>, body: seq<byte>, s: nat, i: nat, t: nat, j: nat)
    requires TimesOn(sessions, body) <= 1 && s < |sessions| && t < |sessions|
    requires i < |sessions[s].bodies| && sessions[s].bodies[i] == body
    requires j < |sessions[t].bodies| && sessions[t].bodies[j] == body
    ensures s == t && i == j
  {
    Occurs(sessions[s].bodies, i);
    Occurs(sessions[t].bodies, j);
    if s < t { OccursOnBoth(sessions, s, t, body); }
    if t < s { OccursOnBoth(sessions, t, s, body); }
    OccursOn(sessions, s, body);
    if s == t && i < j { OccursTwice(sessions[s].bodies, i, j); }
    if s == t && j < i { OccursTwice(sessions[s].bodies, j, i); }
  }

  // ---------------------------------------------------------------------------------------
  // Steps
  // ---------------------------------------------------------------------------------------

  function BodyOf(codecs: Codecs, k: Call): seq<byte> { codecs.requests.serialise(k.request) }

  /** The call has not been written, or can no longer be. */
  predicate Unwritten(phase: Phase) { phase == Added || phase == SendFailed }

  predicate Underway(phase: Phase) { phase == Sent || phase == Waiting || phase == Resumed }

  /** How a step may change the phase of a call without writing. */
  predicate Moves(a: Phase, b: Phase)
  {
    || a == b || (a == Added && b == SendFailed) || (a == SendFailed && b.Returned?)
    || (Underway(a) && (Underway(b) || b.Returned?))
  }

  /** The action writes the request of call n. */
  predicate Writes(c: Client, codecs: Codecs, a: Action, n: nat)
    requires n < |c.calls|
  {
    && a.DoWrite? && a.n == n && c.calls[n].phase == Added && a.ok
    && CanWrite(c) && ValidLength(|BodyOf(codecs, c.calls[n])|)
  }

  /** What a step does to call n and to what was written of it. */
  ghost predicate StepAt(c: Client, d: Client, codecs: Codecs, a: Action, n: nat)
    requires n < |c.calls|
  {
    && n < |d.calls| && d.calls[n].(phase := Added) == c.calls[n].(phase := Added)
    && var body := BodyOf(codecs, c.calls[n]);
       var before, after := TimesOn(c.sessions, body), TimesOn(d.sessions, body);
       if Writes(c, codecs, a, n) then d.calls[n].phase == Sent && after == before + 1
       else Moves(c.calls[n].phase, d.calls[n].phase) && after == before
  }

  /** Different calls have different bodies, and none that of a heartbeat. */
  lemma BodiesDiffer(c: Client, codecs: Codecs, m: nat, n: nat)
    requires Inv(c, codecs) && codecs.requests.Lawful() && m < |c.calls| && n < |c.calls|
    ensures BodyOf(codecs, c.calls[m]) == BodyOf(codecs, c.calls[n]) ==> m == n
  {
    OwnId(c, m, n);
    assert codecs.requests.parse(BodyOf(codecs, c.calls[m])) == Some(c.calls[m].request);
    assert codecs.requests.parse(BodyOf(codecs, c.calls[n])) == Some(c.calls[n].request);
  }

  lemma NotAHeartbeat(codecs: Codecs, q: Request, number: nat, m: nat)
    requires codecs.requests.Lawful() && q.id == Decimal(number)
    ensures codecs.requests.serialise(q) != codecs.requests.serialise(HeartbeatRequest(m))
  {
    NotAHeartbeatId(number);
    assert IsHeartbeatId(HeartbeatRequest(m).id);
    assert codecs.requests.parse(codecs.requests.serialise(q)) == Some(q);
    assert codecs.requests.parse(codecs.requests.serialise(HeartbeatRequest(m))) == Some(HeartbeatRequest(m));
  }

  /** Call n is the same up to its phase, which moves on. */
  predicate GoesOn(c: Client, d: Client, n: nat)
    requires n < |c.calls|
  {
    && n < |d.calls| && d.calls[n].(phase := Added) == c.calls[n].(phase := Added)
    && Moves(c.calls[n].phase, d.calls[n].phase)
  }

  /** A step that writes no body counts nothing. */
  lemma NothingCounted(c: Client, d: Client, codecs: Codecs, a: Action, n: nat)
    requires n < |c.calls| && GoesOn(c, d, n) && SameBodies(c.sessions, d.sessions) && !Writes(c, codecs, a, n)
    ensures StepAt(c, d, codecs, a, n)
  {
    TimesOnSame(c.sessions, d.sessions, BodyOf(codecs, c.calls[n]));
  }

  lemma BrokenOffBodies(c: Client, part: seq<byte>)
    ensures SameBodies(c.sessions, BrokenOff(c, part).sessions) && BrokenOff(c, part).calls == c.calls
  {
  }

  lemma WrittenIs(c: Client, codecs: Codecs, n: nat, part: nat, reason: string)
    requires n < |c.calls| && c.calls[n].phase == Added && CanWrite(c) && ValidLength(|BodyOf(codecs, c.calls[n])|)
    ensures var d, i := Write(c, n, codecs, true, part, reason), |c.sessions| - 1;
            && d.sessions == c.sessions[i := Put(c.sessions[i], BodyOf(codecs, c.calls[n]))]
            && d.calls == c.calls[n := c.calls[n].(phase := Sent)]
  {
  }

  lemma NotWrittenIs(c: Client, codecs: Codecs, m: nat, ok: bool, part: nat, reason: string)
    requires m < |c.calls|
    requires !(c.calls[m].phase == Added && ok && CanWrite(c) && ValidLength(|BodyOf(codecs, c.calls[m])|))
    ensures var d := Write(c, m, codecs, ok, part, reason);
            SameBodies(c.sessions, d.sessions) && forall n :: 0 <= n < |c.calls| ==> GoesOn(c, d, n)
  {
    BrokenOffBodies(c, Cut(BodyOf(codecs, c.calls[m]), part));
  }

  lemma WriteAt(c: Client, codecs: Codecs, a: Action, n: nat)
    requires Inv(c, codecs) && codecs.requests.Lawful() && n < |c.calls| && a.DoWrite? && a.n < |c.calls|
    ensures StepAt(c, Step(c, codecs, a), codecs, a, n)
  {
    var own, d := BodyOf(codecs, c.calls[a.n]), Step(c, codecs, a);
    if c.calls[a.n].phase == Added && a.ok && CanWrite(c) && ValidLength(|own|) {
      BodiesDiffer(c, codecs, a.n, n);
      WrittenIs(c, codecs, a.n, a.part, a.reason);
      WrittenAt(c, d, codecs, a, n);
    } else {
      NotWrittenIs(c, codecs, a.n, a.ok, a.part, a.reason);
      NothingCounted(c, d, codecs, a, n);
    }
  }

  lemma WrittenAt(c: Client, d: Client, codecs: Codecs, a: Action, n: nat)
    requires n < |c.calls| && a.DoWrite? && a.n < |c.calls| && Writes(c, codecs, a, a.n)
    requires BodyOf(codecs, c.calls[a.n]) == BodyOf(codecs, c.calls[n]) ==> a.n == n
    requires var i := |c.sessions| - 1; d.sessions == c.sessions[i := Put(c.sessions[i], BodyOf(codecs, c.calls[a.n]))]
    requires d.calls == c.calls[a.n := c.calls[a.n].(phase := Sent)]
    ensures StepAt(c, d, codecs, a, n)
  {
    TimesOnPut(c.sessions, BodyOf(codecs, c.calls[a.n]), BodyOf(codecs, c.calls[n]));
  }

  /** A heartbeat is written whole, or no whole body is written. */
  lemma HeartbeatIs(c: Client, codecs: Codecs, ok: bool, part: nat)
    ensures var d, i := SendHeartbeat(c, codecs, ok, part), |c.sessions| - 1;
            && d.calls == c.calls
            && (|| SameBodies(c.sessions, d.sessions)
                || (i >= 0 && d.sessions == c.sessions[i := Put(c.sessions[i],
                      codecs.requests.serialise(HeartbeatRequest(c.nextId + 1)))]))
  {
  }

  lemma HeartbeatAt(c: Client, codecs: Codecs, a: Action, n: nat)
    requires n < |c.calls| && c.calls[n].request.id == c.calls[n].Id() && codecs.requests.Lawful() && a.DoHeartbeat?
    ensures StepAt(c, Step(c, codecs, a), codecs, a, n)
  {
    HeartbeatIs(c, codecs, a.ok, a.part);
    NotAHeartbeat(codecs, c.calls[n].request, c.calls[n].number, c.nextId + 1);
    var d := Step(c, codecs, a);
    if SameBodies(c.sessions, d.sessions) {
      NothingCounted(c, d, codecs, a, n);
    } else {
      TimesOnPut(c.sessions, codecs.requests.serialise(HeartbeatRequest(c.nextId + 1)), BodyOf(codecs, c.calls[n]));
    }
  }

  /** The steps that write nothing. */
  lemma OtherAt(c: Client, codecs: Codecs, a: Action, n: nat)
    requires n < |c.calls| && !a.DoWrite? && !a.DoHeartbeat? && !a.DoConnect? && !a.DoWake?
    ensures StepAt(c, Step(c, codecs, a), codecs, a, n)
  {
    if a.DoBegin? || a.DoPopFailed? || a.DoBind? || a.DoPopResumed? {
      CallMoves(c, codecs, a, n);
    } else {
      LinkMoves(c, codecs, a);
    }
    NothingCounted(c, Step(c, codecs, a), codecs, a, n);
  }

  lemma CallMoves(c: Client, codecs: Codecs, a: Action, n: nat)
    requires n < |c.calls| && (a.DoBegin? || a.DoPopFailed? || a.DoBind? || a.DoPopResumed?)
    ensures Step(c, codecs, a).sessions == c.sessions && GoesOn(c, Step(c, codecs, a), n)
  {
    if a.DoBind? && a.n < |c.calls| { BindMoves(c, a.n, a.deadline, n); }
  }

  lemma BindMoves(c: Client, m: nat, deadline: nat, n: nat)
    requires m < |c.calls| && n < |c.calls|
    ensures Bind(c, m, deadline).sessions == c.sessions && GoesOn(c, Bind(c, m, deadline), n)
  {
  }

  lemma LinkMoves(c: Client, codecs: Codecs, a: Action)
    requires a.DoDisconnect? || a.DoArrive? || a.DoFrame? || a.DoFail?
    ensures SameBodies(c.sessions, Step(c, codecs, a).sessions) && Step(c, codecs, a).calls == c.calls
  {
    if a.DoDisconnect? { BrokenOffBodies(c, []); }
  }

  /** Only calls that wait are woken. */
  lemma WakeAt(c: Client, codecs: Codecs, a: Action, n: nat)
    requires Inv(c, codecs) && n < |c.calls| && a.DoWake?
    ensures StepAt(c, Step(c, codecs, a), codecs, a, n)
  {
    assert MailOk(c.pending.outbox, c.calls);
  }

  lemma OwnIds(c: Client, codecs: Codecs, n: nat)
    requires Inv(c, codecs) && n < |c.calls|
    ensures c.calls[n].request.id == c.calls[n].Id()
  {
  }

  lemma StepCounts(c: Client, codecs: Codecs, a: Action, n: nat)
    requires Inv(c, codecs) && codecs.requests.Lawful() && n < |c.calls|
    ensures StepAt(c, Step(c, codecs, a), codecs, a, n)
  {
    if a.DoWrite? && a.n < |c.calls| { WriteAt(c, codecs, a, n); }
    else if a.DoHeartbeat? { OwnIds(c, codecs, n); HeartbeatAt(c, codecs, a, n); }
    else if a.DoWake? { WakeAt(c, codecs, a, n); }
    else if a.DoConnect? { TimesOnConnect(c.sessions, Connect(c).sessions[|c.sessions|], BodyOf(codecs, c.calls[n])); }
    else if !a.DoWrite? { OtherAt(c, codecs, a, n); }
  }

  // ---------------------------------------------------------------------------------------
  // Every run
  // ---------------------------------------------------------------------------------------

  /** A call as it was asked for. */
  predicate AsAsked(k: Call, a: Action)
    requires a.DoBegin?
  {
    k.co == a.co && k.request == Request(Decimal(k.number), a.service, a.operation, a.payload)
  }

  /** How often the request of a call in some phase has been written. */
  predicate CountOk(phase: Phase, times: nat)
  {
    times <= 1 && (Unwritten(phase) ==> times == 0) && (Underway(phase) ==> times == 1)
  }

  ghost predicate Counted(c: Client, codecs: Codecs)
  {
    forall n :: 0 <= n < |c.calls| ==> CountOk(c.calls[n].phase, TimesOn(c.sessions, BodyOf(codecs, c.calls[n])))
  }

  lemma BeginIs(c: Client, codecs: Codecs, a: Action)
    requires Inv(c, codecs) && a.DoBegin?
    ensures var d := Step(c, codecs, a);
            && |d.calls| == |c.calls| + 1 && d.sessions == c.sessions && AsAsked(d.calls[|c.calls|], a)
            && d.calls[|c.calls|].phase == Added && d.calls[|c.calls|].number == c.nextId + 1
  {
    FreshId(c);
  }

  /** A new id has not been written before. */
  lemma NewIsUnwritten(c: Client, codecs: Codecs, q: Request)
    requires Inv(c, codecs) && codecs.requests.Lawful() && q.id == Decimal(c.nextId + 1)
    ensures TimesOn(c.sessions, codecs.requests.serialise(q)) == 0
  {
    var body := codecs.requests.serialise(q);
    forall s | 0 <= s < |c.sessions| ensures body !in c.sessions[s].bodies {
      assert SessionOk(c.sessions[s], c.calls, codecs);
      forall i | 0 <= i < |c.sessions[s].bodies| ensures c.sessions[s].bodies[i] != body {
        NotOurs(c, codecs, q, c.sessions[s].bodies[i]);
      }
    }
    NowhereAmong(c.sessions, body);
  }

  lemma NotOurs(c: Client, codecs: Codecs, q: Request, other: seq<byte>)
    requires Inv(c, codecs) && codecs.requests.Lawful() && q.id == Decimal(c.nextId + 1) && Ours(other, c.calls, codecs)
    ensures codecs.requests.serialise(q) != other
  {
    assert codecs.requests.parse(codecs.requests.serialise(q)) == Some(q);
    if m :| 0 <= m < |c.calls| && other == codecs.requests.serialise(c.calls[m].request) {
      assert codecs.requests.parse(other) == Some(c.calls[m].request);
      if c.calls[m].Id() == q.id { DecimalInjective(c.calls[m].number, c.nextId + 1); }
    } else {
      var m: nat :| other == codecs.requests.serialise(HeartbeatRequest(m));
      NotAHeartbeat(codecs, q, c.nextId + 1, m);
    }
  }

  lemma StepCalls(c: Client, codecs: Codecs, a: Action)
    ensures |Step(c, codecs, a).calls| == |c.calls| + if a.DoBegin? then 1 else 0
  {
  }

  lemma StillCounted(c: Client, d: Client, codecs: Codecs, a: Action, n: nat)
    requires n < |c.calls| && StepAt(c, d, codecs, a, n)
    requires CountOk(c.calls[n].phase, TimesOn(c.sessions, BodyOf(codecs, c.calls[n])))
    ensures CountOk(d.calls[n].phase, TimesOn(d.sessions, BodyOf(codecs, d.calls[n])))
  {
    assert d.calls[n].request == d.calls[n].(phase := Added).request == c.calls[n].request;
  }

  lemma OldCounted(c: Client, codecs: Codecs, a: Action, n: nat)
    requires Inv(c, codecs) && codecs.requests.Lawful() && n < |c.calls|
    requires CountOk(c.calls[n].phase, TimesOn(c.sessions, BodyOf(codecs, c.calls[n])))
    ensures var d := Step(c, codecs, a);
            n < |d.calls| && CountOk(d.calls[n].phase, TimesOn(d.sessions, BodyOf(codecs, d.calls[n])))
  {
    StepCounts(c, codecs, a, n);
    StillCounted(c, Step(c, codecs, a), codecs, a, n);
  }

  lemma NewCounted(c: Client, codecs: Codecs, a: Action)
    requires Inv(c, codecs) && codecs.requests.Lawful() && a.DoBegin?
    ensures var d, n := Step(c, codecs, a), |c.calls|;
            n < |d.calls| && CountOk(d.calls[n].phase, TimesOn(d.sessions, BodyOf(codecs, d.calls[n])))
  {
    BeginIs(c, codecs, a);
    NewIsUnwritten(c, codecs, Step(c, codecs, a).calls[|c.calls|].request);
  }

  lemma StepCounted(c: Client, codecs: Codecs, a: Action)
    requires Inv(c, codecs) && codecs.requests.Lawful() && Counted(c, codecs)
    ensures Counted(Step(c, codecs, a), codecs)
  {
    var d := Step(c, codecs, a);
    StepCalls(c, codecs, a);
    forall n | 0 <= n < |d.calls|
      ensures CountOk(d.calls[n].phase, TimesOn(d.sessions, BodyOf(codecs, d.calls[n])))
    {
      if n < |c.calls| { OldCounted(c, codecs, a, n); } else { NewCounted(c, codecs, a); }
    }
  }

  lemma {:induction false} RunCounted(c: Client, codecs: Codecs, actions: seq<Action>)
    requires Inv(c, codecs) && codecs.requests.Lawful() && Counted(c, codecs)
    ensures Counted(Run(c, codecs, actions), codecs)
    decreases |actions|
  {
    if |actions| > 0 {
      StepOk(c, codecs, actions[0]);
      StepCounted(c, codecs, actions[0]);
      RunCounted(Step(c, codecs, actions[0]), codecs, actions[1..]);
    }
  }

  /** In every run the request of a call is written at most once, over all connections: never while it is only begun or
      after its send has failed, and exactly once when it waits for its answer. */
  lemma WrittenAtMostOnce(codecs: Codecs, actions: seq<Action>, n: nat)
    requires codecs.requests.Lawful() && n < |Run(Init, codecs, actions).calls|
    ensures var c := Run(Init, codecs, actions); var k := c.calls[n];
            var times := TimesOn(c.sessions, codecs.requests.serialise(k.request));
            && times <= 1 && (k.phase == Added || k.phase == SendFailed ==> times == 0)
            && (k.phase == Sent || k.phase == Waiting || k.phase == Resumed ==> times == 1)
  {
    InitOk(codecs);
    RunCounted(Init, codecs, actions);
  }

  /** A call whose send has failed stays unwritten for good. */
  lemma {:induction false} StaysUnwritten(c: Client, codecs: Codecs, actions: seq<Action>, n: nat)
    requires Inv(c, codecs) && codecs.requests.Lawful() && n < |c.calls|
    requires c.calls[n].phase == SendFailed || c.calls[n].phase.Returned?
    ensures var d := Run(c, codecs, actions);
            && n < |d.calls| && d.calls[n].request == c.calls[n].request
            && TimesOn(d.sessions, BodyOf(codecs, c.calls[n])) == TimesOn(c.sessions, BodyOf(codecs, c.calls[n]))
    decreases |actions|
  {
    if |actions| > 0 {
      StepOk(c, codecs, actions[0]);
      StepCounts(c, codecs, actions[0], n);
      StaysUnwritten(Step(c, codecs, actions[0]), codecs, actions[1..], n);
    }
  }

  lemma {:induction false} RunTwice(c: Client, codecs: Codecs, first: seq<Action>, second: seq<Action>)
    ensures Run(c, codecs, first + second) == Run(Run(c, codecs, first), codecs, second)
    decreases |first|
  {
    if |first| == 0 {
      assert first + second == second;
    } else {
      assert (first + second)[1..] == first[1..] + second;
      RunTwice(Step(c, codecs, first[0]), codecs, first[1..], second);
    }
  }

  /** A call whose send failed at some point of a run is never written, whatever happens afterwards. */
  lemma FailedSendNeverWritten(codecs: Codecs, before: seq<Action>, after: seq<Action>, n: nat)
    requires codecs.requests.Lawful() && n < |Run(Init, codecs, before).calls|
    requires Run(Init, codecs, before).calls[n].phase == SendFailed
    ensures var c := Run(Init, codecs, before + after);
            n < |c.calls| && TimesOn(c.sessions, codecs.requests.serialise(c.calls[n].request)) == 0
  {
    EveryRun(codecs, before);
    WrittenAtMostOnce(codecs, before, n);
    StaysUnwritten(Run(Init, codecs, before), codecs, after, n);
    RunTwice(Init, codecs, before, after);
  }

  /** The calls asked for, in order. */
  function Asked(actions: seq<Action>): (r: seq<Action>)
    ensures forall i :: 0 <= i < |r| ==> r[i].DoBegin?
  {
    if |actions| == 0 then []
    else Asked(actions[..|actions| - 1]) + if actions[|actions| - 1].DoBegin? then [actions[|actions| - 1]] else []
  }

  /** The calls of a run are those asked for: the n-th one carries the service, the operation and the payload of the
      n-th call that was begun. */
  lemma {:induction false} CallsAreAsAsked(codecs: Codecs, actions: seq<Action>)
    requires codecs.requests.Lawful()
    ensures var c := Run(Init, codecs, actions);
            |c.calls| == |Asked(actions)| && forall n :: 0 <= n < |c.calls| ==> AsAsked(c.calls[n], Asked(actions)[n])
    decreases |actions|
  {
    if |actions| > 0 {
      var before, a := actions[..|actions| - 1], actions[|actions| - 1];
      assert before + [a] == actions;
      CallsAreAsAsked(codecs, before);
      RunTwice(Init, codecs, before, [a]);
      var c := Run(Init, codecs, before);
      assert Run(c, codecs, [a]) == Step(c, codecs, a);
      EveryRun(codecs, before);
      StepAsks(c, codecs, a, Asked(before));
    }
  }

  lemma StepAsks(c: Client, codecs: Codecs, a: Action, asked: seq<Action>)
    requires Inv(c, codecs) && codecs.requests.Lawful() && |c.calls| == |asked|
    requires forall n :: 0 <= n < |asked| ==> asked[n].DoBegin? && AsAsked(c.calls[n], asked[n])
    ensures var d, more := Step(c, codecs, a), asked + if a.DoBegin? then [a] else [];
            |d.calls| == |more| && forall n :: 0 <= n < |more| ==> more[n].DoBegin? && AsAsked(d.calls[n], more[n])
  {
    StepCalls(c, codecs, a);
    if a.DoBegin? { BeginIs(c, codecs, a); }
    forall n | 0 <= n < |c.calls| ensures AsAsked(Step(c, codecs, a).calls[n], asked[n]) {
      StepCounts(c, codecs, a, n);
    }
  }
}
