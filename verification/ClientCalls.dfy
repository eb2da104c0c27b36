/**
  Calls of one client: `CallAsync` and `CallCo` as their critical steps, interleaved with the dispatcher, with timeouts,
  with closes and with new connections.
 */
module ClientCalls {
  import opened Common
  import opened Framing
  import opened Rpc
  import P = PendingCalls

  /** `RpcCallResult`. */
  datatype Result = Result(code: ErrorCode, message: string, payload: seq<byte>)

  /** A result and where it came from: made by the client itself, or read from a response on one of its connections. */
  datatype Outcome = Local(result: Result) | Remote(result: Result, session: nat, response: Response)

  type Pending = P.Pending<Outcome>

  function FromServer(session: nat, r: Response): Outcome
  {
    Remote(Result(r.code, r.message, r.payload), session, r)
  }

  /** The client's own failures. */
  function Failure(message: string): Outcome { Local(Result(InternalError, message, [])) }

  const BAD_RESPONSE: string := "failed to parse RpcResponse"

  /** Why the dispatcher fails calls: a response body does not parse, or anything else. */
  datatype Cause = Unparsable | Because(message: string)

  function Failed(cause: Cause): Outcome
  {
    match cause
    case Unparsable => Local(Result(ParseError, BAD_RESPONSE, []))
    case Because(message) => Failure(message)
  }

  /** A failure carries no payload and is an internal error, except that an unparsable response is a parse error. */
  predicate IsFailure(r: Result)
  {
    r.payload == [] && (r.code == InternalError || (r.code == ParseError && r.message == BAD_RESPONSE))
  }

  /** What one write puts on the wire: a whole frame, or the first bytes of one. */
  datatype Piece = Full(body: seq<byte>) | Part(bytes: seq<byte>)

  /** A connection: the bodies written to it whole, the part of the first frame whose write broke off, all that was
      written, whether any of it came after a frame that broke off, what arrived, and how far that has been handled. */
  datatype Session = Session(
    bodies: seq<seq<byte>>,
    tail: seq<byte>,
    wire: seq<Piece>,
    torn: bool,
    open: bool,
    received: seq<byte>,
    frames: seq<seq<byte>>,
    unread: seq<byte>)

  datatype Phase = Added | SendFailed | Sent | Waiting | Resumed | Returned(outcome: Outcome)

  /** The call with index n uses waiter number n, be it a promise or a coroutine handle. */
  datatype Call = Call(co: bool, number: nat, serial: nat, request: Request, phase: Phase)
  {
    function Id(): string { Decimal(number) }
  }

  datatype Client = Client(pending: Pending, nextId: nat, calls: seq<Call>, sessions: seq<Session>)

  datatype Codecs = Codecs(requests: Codec<Request>, responses: Codec<Response>)

  function SetPhase(c: Client, n: nat, phase: Phase): Client
    requires n < |c.calls|
  {
    c.(calls := c.calls[n := c.calls[n].(phase := phase)])
  }

  predicate IsHeartbeatId(id: string) { HEARTBEAT_PREFIX <= id }

  // ---------------------------------------------------------------------------------------
  // Steps of a call
  // ---------------------------------------------------------------------------------------

  /** A new id and its slot. */
  function Begin(c: Client, co: bool, service: string, operation: string, payload: seq<byte>): Client
  {
    var number := c.nextId + 1;
    var id := Decimal(number);
    var (p, ok) := P.Add(c.pending, id);
    var phase := if ok then Added else Returned(Failure("duplicate request_id in pending table"));
    var call := Call(co, number, c.pending.nextSerial, Request(id, service, operation, payload), phase);
    Client(p, number, c.calls + [call], c.sessions)
  }

  /** The connection in use is the last one made. */
  predicate CanWrite(c: Client) { |c.sessions| > 0 && c.sessions[|c.sessions| - 1].open }

  /** A whole frame is written. */
  function Put(x: Session, body: seq<byte>): Session
  {
    x.(bodies := x.bodies + [body], wire := x.wire + [Full(body)], torn := x.torn || x.tail != [])
  }

  /** Part of a frame is written. */
  function Break(x: Session, part: seq<byte>): Session
  {
    if part == [] then x
    else
      x.(tail := if x.tail == [] then part else x.tail, wire := x.wire + [Part(part)], torn := x.torn || x.tail != [])
  }

  function Written(c: Client, body: seq<byte>): Client
    requires CanWrite(c)
  {
    var i := |c.sessions| - 1;
    c.(sessions := c.sessions[i := Put(c.sessions[i], body)])
  }

  /** A write that failed after some bytes of the frame: the connection is then closed. */
  function BrokenOff(c: Client, part: seq<byte>): Client
  {
    if !CanWrite(c) then c
    else
      var i := |c.sessions| - 1;
      c.(sessions := c.sessions[i := Break(c.sessions[i], part).(open := false)])
  }

  /** Some first part of a frame, but not all of it. */
  function Cut(body: seq<byte>, part: nat): seq<byte>
  {
    if ValidLength(|body|) && part < |Frame(body)| then Frame(body)[..part] else []
  }

  /** The request is written whole, or the slot is completed with a send failure. */
  function Write(c: Client, n: nat, codecs: Codecs, ok: bool, part: nat, reason: string): Client
    requires n < |c.calls|
  {
    var k := c.calls[n];
    var body := codecs.requests.serialise(k.request);
    if k.phase != Added then c
    else if ok && CanWrite(c) && ValidLength(|body|) then SetPhase(Written(c, body), n, Sent)
    else
      var d := BrokenOff(c, Cut(body, part));
      SetPhase(d.(pending := P.Complete(c.pending, k.Id(), Failure("send request failed: " + reason)).0), n, SendFailed)
  }

  /** After a failed send: pop the slot's result. */
  function PopFailed(c: Client, n: nat): Client
    requires n < |c.calls|
  {
    var k := c.calls[n];
    if k.phase != SendFailed then c
    else
      var (p, popped) := P.TryPop(c.pending, k.Id());
      SetPhase(c.(pending := p), n, Returned(if popped.Some? then popped.value else Failure("send request failed: ")))
  }

  /** Bind the promise or the coroutine. */
  function Bind(c: Client, n: nat, deadline: nat): Client
    requires n < |c.calls|
  {
    var k := c.calls[n];
    if k.phase != Sent then c
    else if k.co then
      var (p, status) := P.BindCoroutine(c.pending, k.Id(), n, deadline);
      SetPhase(c.(pending := p), n,
        match status
        case Bound => Waiting
        case AlreadyDone => Resumed
        case NotFound => Returned(Failure("bind coroutine waiter failed: request not found"))
        case AlreadyBound => Returned(Failure("bind coroutine waiter failed: already bound")))
    else
      var (p, ok) := P.BindAsync(c.pending, k.Id(), n, deadline);
      if !ok then SetPhase(c.(pending := P.Remove(p, k.Id())), n, Returned(Failure("bind async waiter failed")))
      else if |p.delivered| > |c.pending.delivered|
      then SetPhase(c.(pending := p), n, Returned(p.delivered[|p.delivered| - 1].result))
      else SetPhase(c.(pending := p), n, Waiting)
  }

  /** A waiter is woken: a promise is set, a coroutine goes on to pop its result. */
  function Wake(c: Client, i: nat): Client
    requires i < |c.pending.outbox|
  {
    var d := c.pending.outbox[i];
    var e := c.(pending := P.Deliver(c.pending, i));
    if d.waiter < |c.calls|
    then SetPhase(e, d.waiter, if c.calls[d.waiter].co then Resumed else Returned(d.result))
    else e
  }

  /** `await_resume`. */
  function PopResumed(c: Client, n: nat): Client
    requires n < |c.calls|
  {
    var k := c.calls[n];
    if k.phase != Resumed then c
    else
      var (p, popped) := P.TryPop(c.pending, k.Id());
      SetPhase(c.(pending := p), n,
               Returned(if popped.Some? then popped.value else Failure("coroutine waiter resumed without result")))
  }

  // ---------------------------------------------------------------------------------------
  // Steps of the dispatcher and of the connection
  // ---------------------------------------------------------------------------------------

  function Connect(c: Client): Client { c.(sessions := c.sessions + [Session([], [], [], false, true, [], [], [])]) }

  function Disconnect(c: Client): Client { BrokenOff(c, []) }

  function HeartbeatRequest(number: nat): Request
  {
    Request(HEARTBEAT_PREFIX + Decimal(number), HEARTBEAT_SERVICE, "Ping", [])
  }

  /** A heartbeat whose write fails may leave part of its frame; unlike after a failed call, the connection stays
      open. */
  function SendHeartbeat(c: Client, codecs: Codecs, ok: bool, part: nat): Client
  {
    var body := codecs.requests.serialise(HeartbeatRequest(c.nextId + 1));
    var d := c.(nextId := c.nextId + 1);
    if !CanWrite(c) then d
    else if ok && ValidLength(|body|) then Written(d, body)
    else
      var i := |c.sessions| - 1;
      d.(sessions := c.sessions[i := Break(c.sessions[i], Cut(body, part))])
  }

  function Arrive(c: Client, s: nat, bytes: seq<byte>): Client
    requires s < |c.sessions|
  {
    var x := c.sessions[s];
    c.(sessions := c.sessions[s := x.(received := x.received + bytes, unread := x.unread + bytes)])
  }

  /** One parsed response frame. */
  function OneResponse(p: Pending, s: nat, r: Response): Pending
  {
    if IsHeartbeatId(r.id) then p else P.Complete(p, r.id, FromServer(s, r)).0
  }

  /** One round of `HandleReadableFrames`; a frame that cannot be handled is left to the failure that follows. */
  function HandleFrame(c: Client, s: nat, codecs: Codecs): Client
    requires s < |c.sessions|
  {
    var x := c.sessions[s];
    match FirstFrame(x.unread)
    case Whole(n) =>
      var body := x.unread[HEADER_BYTES..HEADER_BYTES + n];
      (match codecs.responses.parse(body)
       case None => c
       case Some(r) =>
         c.(pending := OneResponse(c.pending, s, r),
            sessions := c.sessions[s := x.(frames := x.frames + [body], unread := x.unread[HEADER_BYTES + n..])]))
    case _ => c
  }

  /** `FailAll`, or with a time `FailTimedOut`. */
  function Fail(c: Client, ids: seq<string>, now: Option<nat>, cause: Cause): Client
  {
    c.(pending := P.FailEach(c.pending, ids, now, Failed(cause)))
  }

  datatype Action =
    | DoBegin(co: bool, service: string, operation: string, payload: seq<byte>)
    | DoWrite(n: nat, ok: bool, part: nat, reason: string)
    | DoPopFailed(n: nat)
    | DoBind(n: nat, deadline: nat)
    | DoWake(i: nat)
    | DoPopResumed(n: nat)
    | DoConnect
    | DoDisconnect
    | DoHeartbeat(ok: bool, part: nat)
    | DoArrive(s: nat, bytes: seq<byte>)
    | DoFrame(s: nat)
    | DoFail(ids: seq<string>, now: Option<nat>, cause: Cause)

  function Step(c: Client, codecs: Codecs, a: Action): Client
  {
    match a
    case DoBegin(co, service, operation, payload) => Begin(c, co, service, operation, payload)
    case DoWrite(n, ok, part, reason) => if n < |c.calls| then Write(c, n, codecs, ok, part, reason) else c
    case DoPopFailed(n) => if n < |c.calls| then PopFailed(c, n) else c
    case DoBind(n, deadline) => if n < |c.calls| then Bind(c, n, deadline) else c
    case DoWake(i) => if i < |c.pending.outbox| then Wake(c, i) else c
    case DoPopResumed(n) => if n < |c.calls| then PopResumed(c, n) else c
    case DoConnect => Connect(c)
    case DoDisconnect => Disconnect(c)
    case DoHeartbeat(ok, part) => SendHeartbeat(c, codecs, ok, part)
    case DoArrive(s, bytes) => if s < |c.sessions| then Arrive(c, s, bytes) else c
    case DoFrame(s) => if s < |c.sessions| then HandleFrame(c, s, codecs) else c
    case DoFail(ids, now, cause) => Fail(c, ids, now, cause)
  }

  function Run(c: Client, codecs: Codecs, actions: seq<Action>): Client
    decreases |actions|
  {
    if |actions| == 0 then c else Run(Step(c, codecs, actions[0]), codecs, actions[1..])
  }

  const Init: Client := Client(P.Init<Outcome>(), 0, [], [])
}
