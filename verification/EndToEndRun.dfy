/** One whole call, step by step: the runs that the end-to-end theorem is about do happen. */
module EndToEndRun {
  import opened Common
  import opened Framing
  import opened Rpc
  import C = Connection
  import P = PendingCalls
  import W = WorkerLoop
  import WorkerProofs
  import WorkerTheorems
  import opened ClientCalls
  import ClientRuns
  import opened EndToEnd

  // ---------------------------------------------------------------------------------------
  // The client
  // ---------------------------------------------------------------------------------------

  lemma RunCons(c: Client, codecs: Codecs, a: Action, rest: seq<Action>)
    ensures Run(c, codecs, [a] + rest) == Run(Step(c, codecs, a), codecs, rest)
  {
    assert ([a] + rest)[1..] == rest;
  }

  /** The client in the middle of its only call, which has number m. */
  function During(p: Pending, m: nat, q: Request, phase: Phase, x: Session): Client
  {
    Client(p, m, [Call(false, m, 0, q, phase)], [x])
  }

  function Slots(m: nat, slot: P.Slot<Outcome>): Pending
  {
    P.Pending(map[Decimal(m) := slot], 1, [], [], map[], {}, {})
  }

  const FRESH: Session := Session([], [], [], false, true, [], [], [])

  /** Nothing has come back on the connection yet. */
  predicate Silent(x: Session) { x.open && x.received == [] && x.frames == [] && x.unread == [] }

  /** The call's slot is new, and the request not written. */
  function Begun(m: nat, q: Request, x: Session): Client { During(Slots(m, P.FreshSlot(0)), m, q, Added, x) }

  lemma Begins(m: nat, q: Request, x: Session)
    requires q.id == Decimal(m + 1)
    ensures Begin(Client(P.Init<Outcome>(), m, [], [x]), false, q.service, q.operation, q.payload) == Begun(m + 1, q, x)
  {
  }

  lemma SentWhole(codecs: Codecs, m: nat, q: Request, x: Session)
    requires codecs.requests.Fits(q) && x.open
    ensures Write(Begun(m, q, x), 0, codecs, true, 0, "")
         == During(Slots(m, P.FreshSlot(0)), m, q, Sent, Put(x, codecs.requests.serialise(q)))
  {
    var c, body := Begun(m, q, x), codecs.requests.serialise(q);
    assert Written(c, body).sessions == [Put(x, body)];
    assert SetPhase(Written(c, body), 0, Sent).calls == [Call(false, m, 0, q, Sent)];
  }

  function BoundSlot(): P.Slot<Outcome>
  {
    var s: P.Slot<Outcome> := P.FreshSlot(0);
    s.(promise := Some(0), asyncBound := true)
  }

  lemma BoundPromise(m: nat, q: Request, x: Session)
    ensures Bind(During(Slots(m, P.FreshSlot(0)), m, q, Sent, x), 0, 0)
         == During(Slots(m, BoundSlot()), m, q, Waiting, x)
  {
  }

  function Taken(o: Outcome): Pending
  {
    P.Pending(map[], 1, [P.Delivery(0, 0, o)], [], map[0 := o], {0}, {})
  }

  lemma Completed(m: nat, o: Outcome)
    ensures P.Complete(Slots(m, BoundSlot()), Decimal(m), o).0 == Taken(o)
  {
  }

  lemma OneFrame(body: seq<byte>)
    requires ValidLength(|body|)
    ensures FirstFrame(Frame(body)) == Whole(|body|)
    ensures Frame(body)[HEADER_BYTES..HEADER_BYTES + |body|] == body && Frame(body)[HEADER_BYTES + |body|..] == []
  {
    HeaderRoundTrip(|body|, body);
  }

  lemma Answered(codecs: Codecs, m: nat, q: Request, x: Session, r: Response)
    requires codecs.responses.Lawful() && codecs.responses.Fits(r) && r.id == Decimal(m) && x.frames == []
    requires x.unread == Frame(codecs.responses.serialise(r))
    ensures HandleFrame(During(Slots(m, BoundSlot()), m, q, Waiting, x), 0, codecs)
         == During(Taken(FromServer(0, r)), m, q, Waiting, x.(frames := [codecs.responses.serialise(r)], unread := []))
  {
    OneFrame(codecs.responses.serialise(r));
    ClientRuns.NotAHeartbeatId(m);
    Completed(m, FromServer(0, r));
    var body := codecs.responses.serialise(r);
    var c := During(Slots(m, BoundSlot()), m, q, Waiting, x);
    var d := HandleFrame(c, 0, codecs);
    assert x.frames + [body] == [body];
    assert d.pending == OneResponse(c.pending, 0, r);
    assert d.sessions == [x.(frames := [body], unread := [])];
  }

  function Woken(o: Outcome): Pending
  {
    P.Pending(map[], 1, [], [P.Delivery(0, 0, o)], map[0 := o], {0}, {})
  }

  lemma PromiseSet(m: nat, q: Request, x: Session, o: Outcome)
    ensures Wake(During(Taken(o), m, q, Waiting, x), 0) == During(Woken(o), m, q, Returned(o), x)
  {
    assert P.Deliver(Taken(o), 0) == Woken(o);
  }

  /** The request is written and its promise bound; the bytes arrive, and what they answer is returned. */
  function Exchange(bytes: seq<byte>): seq<Action>
  {
    [DoWrite(0, true, 0, "")] + ([DoBind(0, 0)] + ([DoArrive(0, bytes)] + ([DoFrame(0)] + ([DoWake(0)] + []))))
  }

  lemma Exchanged(codecs: Codecs, m: nat, q: Request, x: Session, r: Response)
    requires codecs.responses.Lawful() && codecs.requests.Fits(q) && codecs.responses.Fits(r)
    requires r.id == Decimal(m) && Silent(x)
    ensures var rb := codecs.responses.serialise(r);
            Run(Begun(m, q, x), codecs, Exchange(Frame(rb)))
            == During(Woken(FromServer(0, r)), m, q, Returned(FromServer(0, r)),
                      Put(x, codecs.requests.serialise(q)).(received := Frame(rb), frames := [rb]))
  {
    var rb := codecs.responses.serialise(r);
    var bytes := Frame(rb);
    var y := Put(x, codecs.requests.serialise(q));
    var r2 := [DoArrive(0, bytes)] + ([DoFrame(0)] + ([DoWake(0)] + []));
    RunCons(Begun(m, q, x), codecs, DoWrite(0, true, 0, ""), [DoBind(0, 0)] + r2);
    SentWhole(codecs, m, q, x);
    RunCons(During(Slots(m, P.FreshSlot(0)), m, q, Sent, y), codecs, DoBind(0, 0), r2);
    BoundPromise(m, q, y);
    ReplyArrives(codecs, m, q, y, r);
  }

  lemma ReplyArrives(codecs: Codecs, m: nat, q: Request, x: Session, r: Response)
    requires codecs.responses.Lawful() && codecs.responses.Fits(r) && r.id == Decimal(m) && Silent(x)
    ensures var rb := codecs.responses.serialise(r);
            Run(During(Slots(m, BoundSlot()), m, q, Waiting, x), codecs,
                [DoArrive(0, Frame(rb))] + ([DoFrame(0)] + ([DoWake(0)] + [])))
            == During(Woken(FromServer(0, r)), m, q, Returned(FromServer(0, r)),
                      x.(received := Frame(rb), frames := [rb]))
  {
    var rb := codecs.responses.serialise(r);
    var c, bytes := During(Slots(m, BoundSlot()), m, q, Waiting, x), Frame(rb);
    var y := x.(received := bytes, unread := bytes);
    var d := During(Slots(m, BoundSlot()), m, q, Waiting, y);
    RunCons(c, codecs, DoArrive(0, bytes), [DoFrame(0)] + ([DoWake(0)] + []));
    assert [] + bytes == bytes;
    assert Arrive(c, 0, bytes) == d;
    RunCons(d, codecs, DoFrame(0), [DoWake(0)] + []);
    Answered(codecs, m, q, y, r);
    var z := y.(frames := [rb], unread := []);
    RunCons(During(Taken(FromServer(0, r)), m, q, Waiting, z), codecs, DoWake(0), []);
    PromiseSet(m, q, z, FromServer(0, r));
  }

  function ClientActions(q: Request, bytes: seq<byte>): seq<Action>
  {
    [DoConnect] + ([DoBegin(false, q.service, q.operation, q.payload)] + Exchange(bytes))
  }

  lemma ClientSide(codecs: Codecs, q: Request, r: Response)
    requires codecs.responses.Lawful() && codecs.requests.Fits(q) && codecs.responses.Fits(r)
    requires q.id == Decimal(1) && r.id == Decimal(1)
    ensures var rb := codecs.responses.serialise(r);
            Run(Init, codecs, ClientActions(q, Frame(rb)))
            == During(Woken(FromServer(0, r)), 1, q, Returned(FromServer(0, r)),
                      Put(FRESH, codecs.requests.serialise(q)).(received := Frame(rb), frames := [rb]))
  {
    var bytes := Frame(codecs.responses.serialise(r));
    var begin := DoBegin(false, q.service, q.operation, q.payload);
    RunCons(Init, codecs, DoConnect, [begin] + Exchange(bytes));
    assert Connect(Init) == Client(P.Init<Outcome>(), 0, [], [FRESH]);
    RunCons(Connect(Init), codecs, begin, Exchange(bytes));
    Begins(0, q, FRESH);
    Exchanged(codecs, 1, q, FRESH, r);
  }

  // ---------------------------------------------------------------------------------------
  // The server
  // ---------------------------------------------------------------------------------------

  /** A server without a pool, whose socket first yields the request and later takes the whole response. */
  function Site(codecs: Codecs, registry: Registry, request: seq<byte>, taken: nat, maxWrite: nat): C.Env
  {
    C.Env((k: nat) => if k == 0 then C.RecvRun([request], C.WouldBlock) else C.RecvRun([], C.WouldBlock),
          (k: nat) => [C.Sent(taken)], (n: nat) => true, false, registry, codecs.requests, codecs.responses, 5, 5,
              maxWrite)
  }

  function Accepted(): C.Conn
  {
    C.Conn(C.EmptyIo, C.Reading, false, false, false, Some(5), true, false, C.AtRead, true, 0, 0)
  }

  /** After the request was read: the response is queued and the coroutine waits to write. */
  function Queued(b: seq<byte>, rb: seq<byte>): C.Conn
    requires ValidLength(|b|) && ValidLength(|rb|)
  {
    C.Conn(C.Io([], [C.Chunk(Frame(rb), 0)], |Frame(rb)|, Some(5), 0, [], Frame(b), [b], [rb], [], []),
           C.Writing, false, false, false, None, false, true, C.AtWrite, true, 1, 0)
  }

  /** After it was written. */
  function Replied(b: seq<byte>, rb: seq<byte>): C.Conn
    requires ValidLength(|b|) && ValidLength(|rb|)
  {
    C.Conn(C.Io([], [], 0, None, 0, [], Frame(b), [b], [rb], [], Frame(rb)),
           C.Reading, false, false, false, Some(5), true, false, C.AtRead, true, 1, 1)
  }

  /** Body b can be taken for the request q and the answer to that be sent. */
  ghost predicate Reads(codecs: Codecs, registry: Registry, b: seq<byte>, q: Request, maxWrite: nat)
  {
    && codecs.requests.parse(b) == Some(q) && ValidLength(|b|) && codecs.responses.Fits(Owed(registry, q))
    && |Frame(codecs.responses.serialise(Owed(registry, q)))| <= maxWrite
  }

  /** What is in place when the call is made. */
  ghost predicate Ready(codecs: Codecs, registry: Registry, q: Request, maxWrite: nat)
  {
    && codecs.requests.Lawful() && codecs.responses.Lawful() && q.id == Decimal(1)
    && codecs.requests.Fits(q) && Reads(codecs, registry, codecs.requests.serialise(q), q, maxWrite)
  }

  lemma Flat(x: seq<byte>)
    ensures Flatten([x]) == x
  {
    assert Flatten([x]) == x + Flatten([x][1..]);
  }

  lemma RequestTaken(codecs: Codecs, registry: Registry, b: seq<byte>, q: Request, maxWrite: nat)
    requires Reads(codecs, registry, b, q, maxWrite)
    ensures var rb := codecs.responses.serialise(Owed(registry, q));
            var env := Site(codecs, registry, Frame(b), |Frame(rb)|, maxWrite);
            C.TakeRequests(C.Receive(C.EmptyIo, Frame(b)), env, 0) == (Queued(b, rb).io, true)
  {
    var rb := codecs.responses.serialise(Owed(registry, q));
    var env := Site(codecs, registry, Frame(b), |Frame(rb)|, maxWrite);
    var io := C.Receive(C.EmptyIo, Frame(b));
    OneFrame(b);
    assert [] + Frame(b) == Frame(b);
    assert env.requests.parse(b) == Some(q);
    var (d, ok) := C.TakeRequest(io, env, 0, |b|);
    assert ok && d == Queued(b, rb).io by {
      assert C.Process(io, env, 0, b) == C.Enqueue(io, env, 0, Owed(registry, q));
      assert [] + [C.Chunk(Frame(rb), 0)] == [C.Chunk(Frame(rb), 0)] && [] + [rb] == [rb] && [] + [b] == [b];
    }
    assert FirstFrame(d.inbuf) == Short;
  }

  lemma AfterReading(codecs: Codecs, registry: Registry, b: seq<byte>, q: Request, maxWrite: nat)
    requires Reads(codecs, registry, b, q, maxWrite)
    ensures var rb := codecs.responses.serialise(Owed(registry, q));
            C.NotifyReadable(Accepted(), Site(codecs, registry, Frame(b), |Frame(rb)|, maxWrite), 0) == Queued(b, rb)
  {
    var rb := codecs.responses.serialise(Owed(registry, q));
    var env := Site(codecs, registry, Frame(b), |Frame(rb)|, maxWrite);
    var c := Accepted().(state := C.Reading, readWaiter := false, readReady := false, readDeadline := None);
    Flat(Frame(b));
    RequestTaken(codecs, registry, b, q, maxWrite);
    assert C.Receive(C.EmptyIo, Frame(b)).inbuf == Frame(b);
    assert C.ReadData(c.io, env.recv(0), env, 0) == (Queued(b, rb).io, C.Served);
    var d := c.(io := Queued(b, rb).io, recvs := 1, state := C.Open);
    assert C.OnReadable(c, env, 0) == (d, true);
    assert C.WriteLoop(d, env, 0) == Queued(b, rb);
  }

  lemma AfterWriting(codecs: Codecs, registry: Registry, b: seq<byte>, rb: seq<byte>, maxWrite: nat)
    requires ValidLength(|b|) && ValidLength(|rb|)
    ensures C.NotifyWritable(Queued(b, rb), Site(codecs, registry, Frame(b), |Frame(rb)|, maxWrite), 0)
            == Replied(b, rb)
  {
    var env := Site(codecs, registry, Frame(b), |Frame(rb)|, maxWrite);
    var c := Queued(b, rb).(state := C.Writing, writeWaiter := false, writeReady := false,
                            io := Queued(b, rb).io.(writeDeadline := None));
    AllSent(c.io, rb);
    var d := c.(io := c.io.(chunks := [], pending := 0, sent := Frame(rb)), flushes := 1);
    assert C.Flushed(c, env) == (d, true);
    assert C.OnWritable(c, env, 0) == (d.(state := C.Open), true);
    assert C.FromTop(d.(state := C.Open), env, 0) == Replied(b, rb);
    assert C.WriteLoop(d.(state := C.Open), env, 0) == C.FromTop(d.(state := C.Open), env, 0);
  }

  lemma AllSent(io: C.Io, rb: seq<byte>)
    requires ValidLength(|rb|) && io.chunks == [C.Chunk(Frame(rb), 0)] && io.pending == |Frame(rb)| && io.sent == []
    ensures C.Flush(io, [C.Sent(|Frame(rb)|)]) == (io.(chunks := [], pending := 0, sent := Frame(rb)), true)
  {
    assert Frame(rb)[0..|Frame(rb)|] == Frame(rb) && [] + Frame(rb) == Frame(rb);
    assert io.chunks[1..] == [];
    var d := C.SendSome(io, |Frame(rb)|);
    assert d == io.(chunks := [], pending := 0, sent := Frame(rb));
  }

  /** A worker with this one connection. */
  function Serving(fd: int, c: C.Conn, armed: bool): W.Worker
  {
    W.Init.(connections := map[fd := W.Entry(c, 0)], armed := map[fd := armed], nextToken := 1)
  }

  function Happens(fd: int, writable: bool): W.Event { W.Event(fd, !writable, writable, false, true, 0) }

  function ServerActions(fd: int): seq<W.Action>
  {
    [W.Arrive(fd)] + ([W.TakePending] + ([W.AdoptNext(true, 0)] + ([W.Ready(Happens(fd, false))]
    + ([W.Ready(Happens(fd, true))] + []))))
  }

  lemma WorkerRunCons(w: W.Worker, world: W.World, a: W.Action, rest: seq<W.Action>)
    requires WorkerProofs.Inv(w, world)
    ensures W.Sound(w) && WorkerProofs.Inv(W.Step(w, world, a), world)
    ensures WorkerProofs.Run(w, world, [a] + rest) == WorkerProofs.Run(W.Step(w, world, a), world, rest)
  {
    WorkerProofs.StepOk(w, world, a);
    assert ([a] + rest)[0] == a && ([a] + rest)[1..] == rest;
  }

  lemma Adopted(world: W.World, fd: int)
    requires world(0).readTimeout == 5
    ensures W.Adopt(W.Init.(adopting := [fd]), world, true, 0).0 == Serving(fd, Accepted(), false)
  {
    assert C.Start(world(0), 0) == Accepted();
    assert W.Adopt(W.Init.(adopting := [fd]), world, true, 0).0.adopting == [];
  }

  /** An event that leaves the connection open and dispatches nothing. */
  lemma EventStep(world: W.World, fd: int, c: C.Conn, d: C.Conn, armed: bool, e: W.Event)
    requires e.fd == fd && e.modOk && C.ChunksOk(c.io.chunks) && C.ChunksOk(d.io.chunks)
    requires W.Notified(c, world(0), e) == d && !d.shouldClose && d.coroutineOk
    requires c.io.dispatched == [] && d.io.dispatched == []
    ensures W.Sound(Serving(fd, c, armed))
    ensures W.OnEvent(Serving(fd, c, armed), world, e) == Serving(fd, d, d.io.chunks != [])
  {
    var w := Serving(fd, c, armed);
    var v := W.Settle(w, fd, d);
    assert W.JobsOf(fd, 0, W.Since(c.io, d.io)) == [];
    assert v.tasks == [] && v.issued == [] && v.connections == map[fd := W.Entry(d, 0)];
    assert v == Serving(fd, d, armed);
  }

  ghost predicate Leads(w: W.Worker, world: W.World, a: W.Action, v: W.Worker)
  {
    W.Sound(w) && W.Step(w, world, a) == v
  }

  /** Five steps, one after the other. */
  lemma FiveSteps(w0: W.Worker, w1: W.Worker, w2: W.Worker, w3: W.Worker, w4: W.Worker, w5: W.Worker, world: W.World,
                  a: W.Action, b: W.Action, c: W.Action, d: W.Action, e: W.Action)
    requires WorkerProofs.Inv(w0, world)
    requires Leads(w0, world, a, w1) && Leads(w1, world, b, w2) && Leads(w2, world, c, w3)
    requires Leads(w3, world, d, w4) && Leads(w4, world, e, w5)
    ensures WorkerProofs.Run(w0, world, [a] + ([b] + ([c] + ([d] + ([e] + []))))) == w5
  {
    WorkerRunCons(w0, world, a, [b] + ([c] + ([d] + ([e] + []))));
    WorkerRunCons(w1, world, b, [c] + ([d] + ([e] + [])));
    WorkerRunCons(w2, world, c, [d] + ([e] + []));
    WorkerRunCons(w3, world, d, [e] + []);
    WorkerRunCons(w4, world, e, []);
  }

  lemma ServerRun(world: W.World, fd: int, w1: W.Worker, w2: W.Worker, w3: W.Worker, w4: W.Worker, w5: W.Worker)
    requires Leads(W.Init, world, W.Arrive(fd), w1) && Leads(w1, world, W.TakePending, w2)
    requires Leads(w2, world, W.AdoptNext(true, 0), w3)
    requires Leads(w3, world, W.Ready(Happens(fd, false)), w4) && Leads(w4, world, W.Ready(Happens(fd, true)), w5)
    ensures WorkerTheorems.RunFromStart(world, ServerActions(fd)) == w5
  {
    WorkerProofs.InitOk(world);
    FiveSteps(W.Init, w1, w2, w3, w4, w5, world,
              W.Arrive(fd), W.TakePending, W.AdoptNext(true, 0), W.Ready(Happens(fd, false)),
                  W.Ready(Happens(fd, true)));
  }

  lemma Handover(world: W.World, fd: int)
    requires world(0).readTimeout == 5
    ensures Leads(W.Init, world, W.Arrive(fd), W.Init.(pending := [fd]))
    ensures Leads(W.Init.(pending := [fd]), world, W.TakePending, W.Init.(adopting := [fd]))
    ensures Leads(W.Init.(adopting := [fd]), world, W.AdoptNext(true, 0), Serving(fd, Accepted(), false))
  {
    Adopted(world, fd);
    assert W.Init.pending + [fd] == [fd];
  }

  lemma EventLeads(world: W.World, fd: int, c: C.Conn, d: C.Conn, armed: bool, e: W.Event)
    requires e.fd == fd && e.modOk && C.ChunksOk(c.io.chunks) && C.ChunksOk(d.io.chunks)
    requires W.Notified(c, world(0), e) == d && !d.shouldClose && d.coroutineOk
    requires c.io.dispatched == [] && d.io.dispatched == []
    ensures Leads(Serving(fd, c, armed), world, W.Ready(e), Serving(fd, d, d.io.chunks != []))
  {
    EventStep(world, fd, c, d, armed, e);
  }

  lemma RequestServed(codecs: Codecs, registry: Registry, b: seq<byte>, q: Request, maxWrite: nat, fd: int,
                      world: W.World)
    requires Reads(codecs, registry, b, q, maxWrite)
    requires var rb := codecs.responses.serialise(Owed(registry, q));
             world(0) == Site(codecs, registry, Frame(b), |Frame(rb)|, maxWrite)
    ensures var rb := codecs.responses.serialise(Owed(registry, q));
            && Leads(Serving(fd, Accepted(), false), world, W.Ready(Happens(fd, false)),
                     Serving(fd, Queued(b, rb), true))
            && Leads(Serving(fd, Queued(b, rb), true), world, W.Ready(Happens(fd, true)),
                     Serving(fd, Replied(b, rb), false))
  {
    var rb := codecs.responses.serialise(Owed(registry, q));
    AfterReading(codecs, registry, b, q, maxWrite);
    EventLeads(world, fd, Accepted(), Queued(b, rb), false, Happens(fd, false));
    AfterWriting(codecs, registry, b, rb, maxWrite);
    EventLeads(world, fd, Queued(b, rb), Replied(b, rb), true, Happens(fd, true));
  }

  /** The server at the other end, which has received the frame of b and sent that of rb. */
  function Server(codecs: Codecs, registry: Registry, b: seq<byte>, rb: seq<byte>, maxWrite: nat, fd: int): Peer
    requires ValidLength(|b|) && ValidLength(|rb|)
  {
    Peer((t: nat) => Site(codecs, registry, Frame(b), |Frame(rb)|, maxWrite), ServerActions(fd), 0, Replied(b, rb))
  }

  lemma ServerExists(codecs: Codecs, registry: Registry, b: seq<byte>, q: Request, maxWrite: nat, fd: int)
    requires Reads(codecs, registry, b, q, maxWrite)
    ensures Server(codecs, registry, b, codecs.responses.serialise(Owed(registry, q)), maxWrite, fd).Exists()
  {
    var rb := codecs.responses.serialise(Owed(registry, q));
    var world := (t: nat) => Site(codecs, registry, Frame(b), |Frame(rb)|, maxWrite);
    Handover(world, fd);
    RequestServed(codecs, registry, b, q, maxWrite, fd, world);
    ServerRun(world, fd, W.Init.(pending := [fd]), W.Init.(adopting := [fd]), Serving(fd, Accepted(), false),
              Serving(fd, Queued(b, rb), true), Serving(fd, Replied(b, rb), false));
    var w := WorkerTheorems.RunFromStart(world, ServerActions(fd));
    assert w.connections[fd] == W.Entry(Replied(b, rb), 0);
    assert WorkerTheorems.HasToken(w, 0, Replied(b, rb));
  }

  // ---------------------------------------------------------------------------------------
  // Both
  // ---------------------------------------------------------------------------------------

  /** For any lawful codecs, any registry and any request within the frame limits there is a run in which the request
      crosses the wire, is answered, and the call returns what it is owed: the hypotheses of `EveryResultIsOwed` are met
      by real runs with remote results. */
  lemma ACallIsAnswered(codecs: Codecs, registry: Registry, q: Request, maxWrite: nat, fd: int)
    requires Ready(codecs, registry, q, maxWrite)
    ensures var b, rb := codecs.requests.serialise(q), codecs.responses.serialise(Owed(registry, q));
            var c := Run(Init, codecs, ClientActions(q, Frame(rb)));
            && |c.calls| == |c.sessions| == 1 && c.calls[0].request == q && !c.sessions[0].torn
            && Linked(c.sessions[0], Server(codecs, registry, b, rb, maxWrite, fd), codecs)
            && c.calls[0].phase == Returned(FromServer(0, Owed(registry, q)))
  {
    var b := codecs.requests.serialise(q);
    ClientSide(codecs, q, Owed(registry, q));
    ServerExists(codecs, registry, b, q, maxWrite, fd);
    BytesSnoc([], Full(b));
    assert [] + [Full(b)] == [Full(b)];
    assert [] + Frame(b) == Frame(b);
  }

  /** A handler registered under the heartbeat service is never reached: there is a run of both sides in which a call to
      it comes back OK and empty, whatever the handler would have answered. */
  lemma HeartbeatHandlerShadowed(codecs: Codecs, registry: Registry, q: Request, maxWrite: nat, fd: int)
    requires Ready(codecs, registry, q, maxWrite) && q.service == HEARTBEAT_SERVICE
    requires ResultOf(Serve(registry, q)) != Result(OK, "", [])
    ensures var b, rb := codecs.requests.serialise(q), codecs.responses.serialise(Owed(registry, q));
            var c := Run(Init, codecs, ClientActions(q, Frame(rb)));
            && |c.calls| == |c.sessions| == 1 && c.calls[0].request == q && !c.sessions[0].torn
            && Linked(c.sessions[0], Server(codecs, registry, b, rb, maxWrite, fd), codecs)
            && c.calls[0].phase.Returned? && c.calls[0].phase.outcome.Remote?
            && c.calls[0].phase.outcome.result == Result(OK, "", []) != ResultOf(Serve(registry, q))
  {
    ACallIsAnswered(codecs, registry, q, maxWrite, fd);
  }
}
