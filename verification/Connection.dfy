/**
  A server connection owned by one worker: its two buffers, its readiness flags and deadlines, and the coroutine that
  serves it, as a program counter.  A step is one call the worker makes; what the network and the dispatcher do in it
  is given by `Env`, so a statement about all environments is a statement about all behaviours.
 */
module Connection {
  import opened Common
  import opened Framing
  import opened Rpc

  datatype State = Open | Reading | Writing | Closing | Closed | Errored

  /** Where `HandleConnectionCo` is suspended, or that it has returned. */
  datatype Pc = AtRead | AtWrite | Finished

  /** A frame in the write queue and how much of it has been sent. */
  datatype Chunk = Chunk(data: seq<byte>, offset: nat)

  datatype RecvEnd = WouldBlock | PeerClosed | RecvError(reason: string)

  /** What one `ReadFromSocket` receives, and why it stops. */
  datatype RecvRun = RecvRun(pieces: seq<seq<byte>>, end: RecvEnd)

  datatype SendOutcome = Sent(n: nat) | SendInterrupted | SendWouldBlock | SendError

  datatype Dispatch = Dispatch(sequence: nat, request: Request)

  /** `recv(k)` is the k-th `ReadFromSocket`, `send(k)` the send calls of the k-th `FlushWrites`, and `accepts(n)` says
      whether the dispatcher takes the request with sequence number n. */
  datatype Env = Env(
    recv: nat -> RecvRun,
    send: nat -> seq<SendOutcome>,
    accepts: nat -> bool,
    pooled: bool,
    registry: Registry,
    requests: Codec<Request>,
    responses: Codec<Response>,
    readTimeout: nat,
    writeTimeout: nat,
    maxWrite: nat)

  /** The data side of a connection.  `received`, `taken`, `queued`, `handed` and `sent` are histories: the bytes that
      arrived, the bodies processed, the bodies put into the write queue, those among them that are pool results, and
      the bytes that left. */
  datatype Io = Io(
    inbuf: seq<byte>,
    chunks: seq<Chunk>,
    pending: nat,
    writeDeadline: Option<nat>,
    sequence: nat,
    dispatched: seq<Dispatch>,
    received: seq<byte>,
    taken: seq<seq<byte>>,
    queued: seq<seq<byte>>,
    handed: seq<seq<byte>>,
    sent: seq<byte>)

  datatype Conn = Conn(
    io: Io,
    state: State,
    shouldClose: bool,
    readReady: bool,
    writeReady: bool,
    readDeadline: Option<nat>,
    readWaiter: bool,
    writeWaiter: bool,
    pc: Pc,
    coroutineOk: bool,
    recvs: nat,
    flushes: nat)

  // ---------------------------------------------------------------------------------------
  // Writing
  // ---------------------------------------------------------------------------------------

  /** `EnqueueResponse`: refused for an unsendable body or when the unsent bytes would exceed the limit. */
  function Enqueue(c: Io, env: Env, now: nat, r: Response): (res: (Io, bool))
    ensures ChunksOk(c.chunks) ==> ChunksOk(res.0.chunks)
  {
    var body := env.responses.serialise(r);
    if !ValidLength(|body|) then (c, false)
    else if c.pending + |Frame(body)| > env.maxWrite then (c, false)
    else
      (c.(pending := c.pending + |Frame(body)|, chunks := c.chunks + [Chunk(Frame(body), 0)],
          writeDeadline := Some(now + env.writeTimeout), queued := c.queued + [body]), true)
  }

  function Unsent(chunks: seq<Chunk>): seq<byte>
    requires forall i :: 0 <= i < |chunks| ==> chunks[i].offset <= |chunks[i].data|
  {
    if |chunks| == 0 then [] else chunks[0].data[chunks[0].offset..] + Unsent(chunks[1..])
  }

  predicate ChunksOk(chunks: seq<Chunk>)
  {
    forall i :: 0 <= i < |chunks| ==> chunks[i].offset < |chunks[i].data|
  }

  /** The send loop of `FlushWrites`; `None` is a send error. */
  function Flush(c: Io, results: seq<SendOutcome>): (res: (Io, bool))
    requires ChunksOk(c.chunks)
    ensures ChunksOk(res.0.chunks)
    decreases |results|
  {
    if |c.chunks| == 0 || |results| == 0 then (c, true)
    else
      match results[0]
      case SendInterrupted => Flush(c, results[1..])
      case SendWouldBlock => (c, true)
      case SendError => (c, false)
      case Sent(n) => if n == 0 then (c, false) else Flush(SendSome(c, n), results[1..])
  }

  /** The kernel took n bytes of the first chunk, or all that was left of it. */
  function SendSome(c: Io, n: nat): (r: Io)
    requires |c.chunks| > 0 && ChunksOk(c.chunks) && n > 0
    ensures ChunksOk(r.chunks)
  {
    var k := c.chunks[0];
    var left := |k.data| - k.offset;
    var m := if n > left then left else n;
    var bytes := k.data[k.offset..k.offset + m];
    c.(chunks := if m == left then c.chunks[1..] else c.chunks[0 := Chunk(k.data, k.offset + m)],
       pending := if c.pending >= m then c.pending - m else 0,
       sent := c.sent + bytes)
  }

  // ---------------------------------------------------------------------------------------
  // Reading
  // ---------------------------------------------------------------------------------------

  /** One complete frame body: answered at once, handed to the dispatcher, or refused. */
  function Process(c: Io, env: Env, now: nat, body: seq<byte>): (res: (Io, bool))
    ensures ChunksOk(c.chunks) ==> ChunksOk(res.0.chunks)
  {
    match env.requests.parse(body)
    case None => Enqueue(c, env, now, ParseErrorReply)
    case Some(q) =>
      if q.service == HEARTBEAT_SERVICE then Enqueue(c, env, now, HeartbeatReply(q))
      else if env.pooled then
        var n := c.sequence + 1;
        if env.accepts(n) then (c.(sequence := n, dispatched := c.dispatched + [Dispatch(n, q)]), true)
        else (c.(sequence := n), false)
      else Enqueue(c, env, now, Serve(env.registry, q))
  }

  /** `TryParseRequests`. */
  function TakeRequests(c: Io, env: Env, now: nat): (res: (Io, bool))
    ensures ChunksOk(c.chunks) ==> ChunksOk(res.0.chunks)
    decreases |c.inbuf|
  {
    match FirstFrame(c.inbuf)
    case Short => (c, true)
    case BadLength => (c, false)
    case Whole(n) =>
      var (d, ok) := TakeRequest(c, env, now, n);
      if ok then TakeRequests(d, env, now) else (d, false)
  }

  /** Process the first frame, and consume it unless that failed. */
  function TakeRequest(c: Io, env: Env, now: nat, n: nat): (res: (Io, bool))
    requires FirstFrame(c.inbuf) == Whole(n)
    ensures ChunksOk(c.chunks) ==> ChunksOk(res.0.chunks)
    ensures res.1 ==> |res.0.inbuf| < |c.inbuf|
  {
    var body := c.inbuf[HEADER_BYTES..HEADER_BYTES + n];
    var (d, ok) := Process(c, env, now, body);
    if ok then (d.(inbuf := c.inbuf[HEADER_BYTES + n..], taken := c.taken + [body]), true) else (d, false)
  }

  lemma EnqueueKeepsInput(c: Io, env: Env, now: nat, r: Response)
    ensures var d := Enqueue(c, env, now, r).0;
            && d.inbuf == c.inbuf && d.taken == c.taken && d.received == c.received && d.sent == c.sent
  {
  }

  lemma ProcessKeepsInput(c: Io, env: Env, now: nat, body: seq<byte>)
    ensures var d := Process(c, env, now, body).0;
            && d.inbuf == c.inbuf && d.taken == c.taken && d.received == c.received && d.sent == c.sent
  {
    match env.requests.parse(body)
    case None => EnqueueKeepsInput(c, env, now, ParseErrorReply);
    case Some(q) =>
      EnqueueKeepsInput(c, env, now, HeartbeatReply(q));
      EnqueueKeepsInput(c, env, now, Serve(env.registry, q));
  }

  /** `EnterError` while the coroutine itself is running, so that no waiter is set. */
  function Fail(c: Conn): Conn
  {
    c.(shouldClose := true, state := Errored, readDeadline := None, io := c.io.(writeDeadline := None))
  }

  function Receive(c: Io, bytes: seq<byte>): Io
  {
    c.(inbuf := c.inbuf + bytes, received := c.received + bytes)
  }

  datatype Verdict = NoData | Served | PeerGone | Broken

  /** `ReadFromSocket`, and `TryParseRequests` if it left anything to parse. */
  function ReadData(c: Io, run: RecvRun, env: Env, now: nat): (res: (Io, Verdict))
    ensures ChunksOk(c.chunks) ==> ChunksOk(res.0.chunks)
  {
    var d := Receive(c, Flatten(run.pieces));
    match run.end
    case PeerClosed => (d, PeerGone)
    case RecvError(_) => (d, Broken)
    case WouldBlock =>
      if d.inbuf == [] then (d, NoData)
      else var (e, ok) := TakeRequests(d, env, now); (e, if ok then Served else Broken)
  }

  function OnReadable(c: Conn, env: Env, now: nat): (res: (Conn, bool))
    ensures ChunksOk(c.io.chunks) ==> ChunksOk(res.0.io.chunks)
  {
    var (io, verdict) := ReadData(c.io, env.recv(c.recvs), env, now);
    (Judge(c.(io := io), verdict), verdict != Broken)
  }

  /** What a read means for the connection's state. */
  function Judge(c: Conn, verdict: Verdict): Conn
  {
    var d := c.(recvs := c.recvs + 1);
    match verdict
    case NoData => d
    case Served => d.(state := Open)
    case PeerGone => d.(state := Closing, shouldClose := true)
    case Broken => Fail(d)
  }

  function OnWritable(c: Conn, env: Env, now: nat): (res: (Conn, bool))
    requires ChunksOk(c.io.chunks)
    ensures ChunksOk(res.0.io.chunks)
  {
    var (d, ok) := Flushed(c, env);
    (if ok then Wrote(d, env, now) else Fail(d), ok)
  }

  /** The next `FlushWrites`. */
  function Flushed(c: Conn, env: Env): (res: (Conn, bool))
    requires ChunksOk(c.io.chunks)
    ensures ChunksOk(res.0.io.chunks)
  {
    var (io, ok) := Flush(c.io, env.send(c.flushes));
    (c.(io := io, flushes := c.flushes + 1), ok)
  }

  /** After a flush the write deadline goes with the queue. */
  function Wrote(c: Conn, env: Env, now: nat): Conn
  {
    if c.io.chunks == [] then c.(io := c.io.(writeDeadline := None), state := Open)
    else c.(io := c.io.(writeDeadline := Some(now + env.writeTimeout)))
  }

  // ---------------------------------------------------------------------------------------
  // The coroutine
  // ---------------------------------------------------------------------------------------

  function Flags(c: Conn): nat
  {
    (if c.readReady then 1 else 0) + (if c.writeReady then 1 else 0)
  }

  function Finish(c: Conn): Conn { c.(pc := Finished) }

  function FinishFailed(c: Conn): Conn { c.(pc := Finished, coroutineOk := false) }

  /** `HandleConnectionCo` at the top of its loop. */
  function FromTop(c: Conn, env: Env, now: nat): (r: Conn)
    requires ChunksOk(c.io.chunks)
    ensures ChunksOk(r.io.chunks)
    decreases Flags(c), 0
  {
    if c.shouldClose then Finish(c)
    else if c.readReady then ReadNow(c, env, now)
    else c.(pc := AtRead, readWaiter := true, state := Reading, readDeadline := Some(now + env.readTimeout))
  }

  /** `ReadRequestCo` after its wait, and the loop body up to the write phase. */
  function ReadNow(c: Conn, env: Env, now: nat): (r: Conn)
    requires ChunksOk(c.io.chunks) && c.readReady
    ensures ChunksOk(r.io.chunks)
    decreases Flags(c) - 1, 3
  {
    AfterRead(c.(readReady := false, readDeadline := None), env, now)
  }

  function AfterRead(c: Conn, env: Env, now: nat): (r: Conn)
    requires ChunksOk(c.io.chunks)
    ensures ChunksOk(r.io.chunks)
    decreases Flags(c), 2
  {
    if c.shouldClose then Finish(c)
    else
      var (d, ok) := OnReadable(c, env, now);
      if !ok then FinishFailed(d)
      else if d.shouldClose then Finish(d)
      else WriteLoop(d, env, now)
  }

  /** `while (HasPendingWrite()) co_await WriteResponseCo()`. */
  function WriteLoop(c: Conn, env: Env, now: nat): (r: Conn)
    requires ChunksOk(c.io.chunks)
    ensures ChunksOk(r.io.chunks)
    decreases Flags(c), 1
  {
    if c.io.chunks == [] then FromTop(c, env, now)
    else if c.writeReady then WriteNow(c, env, now)
    else
      c.(pc := AtWrite, writeWaiter := true, state := Writing,
         io := c.io.(writeDeadline := Some(now + env.writeTimeout)))
  }

  function WriteNow(c: Conn, env: Env, now: nat): (r: Conn)
    requires ChunksOk(c.io.chunks) && c.writeReady
    ensures ChunksOk(r.io.chunks)
    decreases Flags(c) - 1, 3
  {
    AfterWrite(c.(writeReady := false, io := c.io.(writeDeadline := None)), env, now)
  }

  function AfterWrite(c: Conn, env: Env, now: nat): (r: Conn)
    requires ChunksOk(c.io.chunks)
    ensures ChunksOk(r.io.chunks)
    decreases Flags(c), 2
  {
    if c.shouldClose then Finish(c)
    else
      var (d, ok) := OnWritable(c, env, now);
      if !ok then FinishFailed(d)
      else if d.shouldClose then Finish(d)
      else WriteLoop(d, env, now)
  }

  // ---------------------------------------------------------------------------------------
  // The calls a worker makes
  // ---------------------------------------------------------------------------------------

  const EmptyIo: Io := Io([], [], 0, None, 0, [], [], [], [], [], [])

  /** A new connection whose coroutine has just been started. */
  function Start(env: Env, now: nat): Conn
  {
    FromTop(Conn(EmptyIo, Open, false, false, false, None, false, false, AtRead, true, 0, 0), env, now)
  }

  function ResumeRead(c: Conn, env: Env, now: nat): (r: Conn)
    requires ChunksOk(c.io.chunks)
    ensures ChunksOk(r.io.chunks)
  {
    if !c.readWaiter then c
    else AfterRead(c.(readWaiter := false, readReady := false, readDeadline := None), env, now)
  }

  function ResumeWrite(c: Conn, env: Env, now: nat): (r: Conn)
    requires ChunksOk(c.io.chunks)
    ensures ChunksOk(r.io.chunks)
  {
    if !c.writeWaiter then c
    else AfterWrite(c.(writeWaiter := false, writeReady := false, io := c.io.(writeDeadline := None)), env, now)
  }

  function NotifyReadable(c: Conn, env: Env, now: nat): (r: Conn)
    requires ChunksOk(c.io.chunks)
    ensures ChunksOk(r.io.chunks)
  {
    ResumeRead(c.(readReady := true, state := Reading), env, now)
  }

  function NotifyWritable(c: Conn, env: Env, now: nat): (r: Conn)
    requires ChunksOk(c.io.chunks)
    ensures ChunksOk(r.io.chunks)
  {
    ResumeWrite(c.(writeReady := true, state := Writing), env, now)
  }

  function MarkClosing(c: Conn, env: Env, now: nat): (r: Conn)
    requires ChunksOk(c.io.chunks)
    ensures ChunksOk(r.io.chunks)
  {
    WakeAll(Leaving(c), env, now)
  }

  function Leaving(c: Conn): Conn
  {
    c.(state := if c.state.Closed? || c.state.Errored? then c.state else Closing,
       shouldClose := true, readDeadline := None, io := c.io.(writeDeadline := None))
  }

  /** Both waiters are resumed, the reader first. */
  function WakeAll(c: Conn, env: Env, now: nat): (r: Conn)
    requires ChunksOk(c.io.chunks)
    ensures ChunksOk(r.io.chunks)
  {
    ResumeWrite(ResumeRead(c, env, now), env, now)
  }

  function Tick(c: Conn, env: Env, now: nat): (r: Conn)
    requires ChunksOk(c.io.chunks)
    ensures ChunksOk(r.io.chunks)
  {
    if c.state.Closed? || c.state.Errored? || c.shouldClose then c
    else if c.readDeadline.Some? && now >= c.readDeadline.value then WakeAll(Fail(c), env, now)
    else if c.io.writeDeadline.Some? && now >= c.io.writeDeadline.value then WakeAll(Fail(c), env, now)
    else c
  }

  function Handed(c: Io, body: seq<byte>): Io { c.(handed := c.handed + [body]) }

  /** A pool result for this connection: `EnqueueResponse`, then `NotifyReadable` so that the coroutine gets to
      write. */
  function Deliver(c: Conn, env: Env, now: nat, r: Response): (Conn, bool)
    requires ChunksOk(c.io.chunks)
  {
    var (io, ok) := Enqueue(c.io, env, now, r);
    if ok then (NotifyReadable(c.(io := Handed(io, env.responses.serialise(r))), env, now), true) else (c, false)
  }
}
