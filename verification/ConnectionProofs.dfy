/** What every call of the worker keeps true of a connection. */
module ConnectionProofs {
  import opened Common
  import opened Framing
  import opened Rpc
  import opened Connection

  // ---------------------------------------------------------------------------------------
  // Data
  // ---------------------------------------------------------------------------------------

  /** The write side: what was sent and what is queued make up the frames of the queued bodies, the counter is the
      number of unsent bytes, and it respects the limit. */
  ghost predicate WriteOk(c: Io, env: Env)
  {
    && ChunksOk(c.chunks) && Sendable(c.queued)
    && c.sent + Unsent(c.chunks) == Frames(c.queued)
    && c.pending == |Unsent(c.chunks)| <= env.maxWrite
  }

  /** The read side: the bodies processed and the unread bytes are those of the received stream. */
  ghost predicate ReadOk(c: Io, live: bool)
  {
    && OnTheWay(c.received, c.taken, c.inbuf)
    && (live ==> FirstFrame(c.inbuf).Short?)
  }

  ghost predicate DataOk(c: Io, env: Env, live: bool) { WriteOk(c, env) && ReadOk(c, live) }

  lemma {:induction false} UnsentSnoc(chunks: seq<Chunk>, k: Chunk)
    requires ChunksOk(chunks) && k.offset < |k.data|
    ensures ChunksOk(chunks + [k]) && Unsent(chunks + [k]) == Unsent(chunks) + k.data[k.offset..]
  {
    if |chunks| == 0 {
      assert chunks + [k] == [k];
      assert Unsent([k]) == k.data[k.offset..] + Unsent([k][1..]);
    } else {
      assert (chunks + [k])[1..] == chunks[1..] + [k];
      UnsentSnoc(chunks[1..], k);
    }
  }

  /** A response is queued exactly if its body can be framed and the unsent bytes stay within the limit; its frame is
      then the last of the unsent bytes. */
  lemma EnqueueOk(c: Io, env: Env, now: nat, r: Response)
    requires WriteOk(c, env)
    ensures var (d, ok) := Enqueue(c, env, now, r); var body := env.responses.serialise(r);
            && WriteOk(d, env)
            && (ok <==> ValidLength(|body|) && |Unsent(c.chunks)| + |Frame(body)| <= env.maxWrite)
            && (if ok then d.chunks != [] && d.writeDeadline.Some? && Unsent(d.chunks) == Unsent(c.chunks) + Frame(body)
                else d == c)
  {
    var (d, ok) := Enqueue(c, env, now, r);
    if ok {
      var body := env.responses.serialise(r);
      UnsentSnoc(c.chunks, Chunk(Frame(body), 0));
      FramesSnoc(c.queued, body);
      assert Frame(body)[0..] == Frame(body);
    }
  }

  /** The write deadline is armed exactly while something is queued. */
  predicate Timed(c: Io) { c.writeDeadline.Some? <==> c.chunks != [] }

  lemma ProcessOk(c: Io, env: Env, now: nat, body: seq<byte>)
    requires WriteOk(c, env) && Timed(c)
    ensures var (d, ok) := Process(c, env, now, body); WriteOk(d, env) && Timed(d)
  {
    match env.requests.parse(body)
    case None => EnqueueOk(c, env, now, ParseErrorReply);
    case Some(q) =>
      if q.service == HEARTBEAT_SERVICE { EnqueueOk(c, env, now, HeartbeatReply(q)); }
      else if !env.pooled { EnqueueOk(c, env, now, Serve(env.registry, q)); }
  }

  lemma TakeRequestOk(c: Io, env: Env, now: nat, n: nat)
    requires DataOk(c, env, false) && Timed(c) && FirstFrame(c.inbuf) == Whole(n)
    ensures var (d, ok) := TakeRequest(c, env, now, n); DataOk(d, env, false) && Timed(d)
  {
    var body := c.inbuf[HEADER_BYTES..HEADER_BYTES + n];
    ProcessOk(c, env, now, body);
    ProcessKeepsInput(c, env, now, body);
    TakeOne(c.received, c.taken, c.inbuf);
  }

  lemma {:induction false} TakeRequestsOk(c: Io, env: Env, now: nat)
    requires DataOk(c, env, false) && Timed(c)
    ensures var (d, ok) := TakeRequests(c, env, now); DataOk(d, env, ok) && Timed(d)
    decreases |c.inbuf|
  {
    match FirstFrame(c.inbuf)
    case Short =>
    case BadLength =>
    case Whole(n) =>
      TakeRequestOk(c, env, now, n);
      var (d, ok) := TakeRequest(c, env, now, n);
      if ok { TakeRequestsOk(d, env, now); }
  }

  lemma ReceiveOk(c: Io, bytes: seq<byte>)
    requires ReadOk(c, true)
    ensures ReadOk(Receive(c, bytes), false)
  {
    Arrived(c.received, c.taken, c.inbuf);
    ParseAppend(c.received, bytes);
  }

  lemma SendSomeOk(c: Io, env: Env, n: nat)
    requires WriteOk(c, env) && |c.chunks| > 0 && n > 0
    ensures WriteOk(SendSome(c, n), env)
  {
    if n >= |c.chunks[0].data| - c.chunks[0].offset { SendRestOk(c, env, n); } else { SendPartOk(c, env, n); }
  }

  lemma SendRestOk(c: Io, env: Env, n: nat)
    requires WriteOk(c, env) && |c.chunks| > 0 && n > 0 && n >= |c.chunks[0].data| - c.chunks[0].offset
    ensures WriteOk(SendSome(c, n), env)
  {
    var k := c.chunks[0];
    var d := SendSome(c, n);
    WholeChunkSent(c.chunks);
    assert k.data[k.offset..|k.data|] == k.data[k.offset..];
    Moved(c.sent, Unsent(c.chunks), k.data[k.offset..], Unsent(c.chunks[1..]), Frames(c.queued));
    assert d.sent == c.sent + k.data[k.offset..] && d.chunks == c.chunks[1..];
  }

  lemma SendPartOk(c: Io, env: Env, n: nat)
    requires WriteOk(c, env) && |c.chunks| > 0 && 0 < n < |c.chunks[0].data| - c.chunks[0].offset
    ensures WriteOk(SendSome(c, n), env)
  {
    var k := c.chunks[0];
    var rest := c.chunks[0 := Chunk(k.data, k.offset + n)];
    PartSentIs(c, n);
    PartOfChunkSent(c.chunks, n);
    Moved(c.sent, Unsent(c.chunks), k.data[k.offset..k.offset + n], Unsent(rest), Frames(c.queued));
  }

  lemma PartSentIs(c: Io, n: nat)
    requires |c.chunks| > 0 && ChunksOk(c.chunks) && 0 < n < |c.chunks[0].data| - c.chunks[0].offset && n <= c.pending
    ensures var k := c.chunks[0];
            SendSome(c, n) == c.(chunks := c.chunks[0 := Chunk(k.data, k.offset + n)], pending := c.pending - n,
                                 sent := c.sent + k.data[k.offset..k.offset + n])
  {
  }

  /** Bytes taken off the front of what is unsent are put at the end of what is sent. */
  lemma Moved(sent: seq<byte>, unsent: seq<byte>, bytes: seq<byte>, rest: seq<byte>, all: seq<byte>)
    requires sent + unsent == all && unsent == bytes + rest
    ensures (sent + bytes) + rest == all && |rest| == |unsent| - |bytes|
  {
  }

  lemma WholeChunkSent(chunks: seq<Chunk>)
    requires |chunks| > 0 && ChunksOk(chunks)
    ensures Unsent(chunks) == chunks[0].data[chunks[0].offset..] + Unsent(chunks[1..])
  {
  }

  /** Sending m bytes of the first chunk takes exactly those off the front of the unsent bytes. */
  lemma PartOfChunkSent(chunks: seq<Chunk>, m: nat)
    requires |chunks| > 0 && ChunksOk(chunks) && chunks[0].offset + m < |chunks[0].data|
    ensures var k := chunks[0];
            var rest := chunks[0 := Chunk(k.data, k.offset + m)];
            ChunksOk(rest) && Unsent(chunks) == k.data[k.offset..k.offset + m] + Unsent(rest)
  {
    var k := chunks[0];
    var rest := chunks[0 := Chunk(k.data, k.offset + m)];
    assert rest[1..] == chunks[1..];
    Cut(k.data, k.offset, k.offset + m, Unsent(chunks[1..]));
  }

  lemma Cut(data: seq<byte>, i: nat, j: nat, tail: seq<byte>)
    requires i <= j <= |data|
    ensures data[i..] + tail == data[i..j] + (data[j..] + tail)
  {
  }

  lemma {:induction false} FlushOk(c: Io, env: Env, results: seq<SendOutcome>)
    requires WriteOk(c, env)
    ensures var d := Flush(c, results).0;
            && WriteOk(d, env) && d.inbuf == c.inbuf && d.taken == c.taken && d.received == c.received
            && d.writeDeadline == c.writeDeadline && d.queued == c.queued
    decreases |results|
  {
    if |c.chunks| > 0 && |results| > 0 {
      match results[0]
      case SendInterrupted => FlushOk(c, env, results[1..]);
      case Sent(n) =>
        if n > 0 {
          SendSomeOk(c, env, n);
          FlushOk(SendSome(c, n), env, results[1..]);
        }
      case _ =>
    }
  }

  // ---------------------------------------------------------------------------------------
  // Shapes
  // ---------------------------------------------------------------------------------------

  /** Waiting to read: only the read waiter and the read deadline are set, and nothing is queued. */
  predicate WaitingToRead(c: Conn)
  {
    && c.pc == AtRead && !c.shouldClose && (c.state.Reading? || c.state.Writing?)
    && c.readWaiter && !c.writeWaiter && c.readDeadline.Some? && c.io.writeDeadline.None?
    && c.io.chunks == [] && !c.readReady
  }

  /** Waiting to write: only the write waiter and the write deadline are set, and something is queued. */
  predicate WaitingToWrite(c: Conn)
  {
    && c.pc == AtWrite && !c.shouldClose && (c.state.Reading? || c.state.Writing?)
    && c.writeWaiter && !c.readWaiter && c.io.writeDeadline.Some? && c.readDeadline.None?
    && c.io.chunks != [] && !c.writeReady
  }

  predicate IsFinished(c: Conn)
  {
    c.pc == Finished && c.shouldClose && !c.readWaiter && !c.writeWaiter
  }

  ghost predicate Good(c: Conn, env: Env)
  {
    && (WaitingToRead(c) || WaitingToWrite(c) || IsFinished(c))
    && DataOk(c.io, env, !c.shouldClose) && (c.coroutineOk || c.shouldClose)
  }

  /** The coroutine is running. */
  predicate Running(c: Conn)
  {
    !c.readWaiter && !c.writeWaiter && c.readDeadline.None? && (c.coroutineOk || c.shouldClose)
  }

  lemma OnReadableOk(c: Conn, env: Env, now: nat)
    requires Running(c) && !c.shouldClose && DataOk(c.io, env, true) && Timed(c.io)
    ensures var (d, ok) := OnReadable(c, env, now);
            && Running(d) && DataOk(d.io, env, !d.shouldClose) && (!ok ==> d.shouldClose)
            && (!d.shouldClose ==> Timed(d.io)) && d.readReady == c.readReady && d.writeReady == c.writeReady
  {
    ReadDataOk(c.io, env.recv(c.recvs), env, now);
    var (io, verdict) := ReadData(c.io, env.recv(c.recvs), env, now);
    JudgeOk(c.(io := io), verdict, env);
  }

  lemma JudgeOk(c: Conn, verdict: Verdict, env: Env)
    requires Running(c) && !c.shouldClose && Timed(c.io)
    requires DataOk(c.io, env, verdict.NoData? || verdict.Served?) && DataOk(c.io.(writeDeadline := None), env, false)
    ensures var d := Judge(c, verdict);
            && Running(d) && DataOk(d.io, env, !d.shouldClose) && (verdict.Broken? ==> d.shouldClose)
            && (!d.shouldClose ==> Timed(d.io)) && d.readReady == c.readReady && d.writeReady == c.writeReady
  {
    var d := Judge(c, verdict);
    assert d.io == if verdict.Broken? then c.io.(writeDeadline := None) else c.io;
  }

  lemma ReadDataOk(c: Io, run: RecvRun, env: Env, now: nat)
    requires DataOk(c, env, true) && Timed(c)
    ensures var (d, verdict) := ReadData(c, run, env, now);
            && DataOk(d, env, verdict.NoData? || verdict.Served?) && Timed(d)
            && DataOk(d.(writeDeadline := None), env, false)
  {
    var io := Receive(c, Flatten(run.pieces));
    ReceiveDataOk(c, env, Flatten(run.pieces));
    if run.end.WouldBlock? && io.inbuf != [] { TakeRequestsOk(io, env, now); }
    FailedDataOk(ReadData(c, run, env, now).0, env);
  }

  lemma ReceiveDataOk(c: Io, env: Env, bytes: seq<byte>)
    requires DataOk(c, env, true)
    ensures var d := Receive(c, bytes); DataOk(d, env, d.inbuf == [])
  {
    ReceiveOk(c, bytes);
  }

  /** Clearing the write deadline changes no data. */
  lemma FailedDataOk(c: Io, env: Env)
    ensures DataOk(c, env, false) ==> DataOk(c.(writeDeadline := None), env, false)
    ensures DataOk(c, env, true) ==> DataOk(c, env, false)
  {
  }

  lemma OnWritableOk(c: Conn, env: Env, now: nat)
    requires Running(c) && !c.shouldClose && DataOk(c.io, env, true)
    ensures var (d, ok) := OnWritable(c, env, now);
            && Running(d) && DataOk(d.io, env, !d.shouldClose) && (!ok ==> d.shouldClose)
            && (!d.shouldClose ==> Timed(d.io)) && d.readReady == c.readReady && d.writeReady == c.writeReady
  {
    FlushOk(c.io, env, env.send(c.flushes));
  }

  lemma {:induction false} FromTopOk(c: Conn, env: Env, now: nat)
    requires Running(c) && !c.shouldClose && DataOk(c.io, env, true) && Timed(c.io) && c.io.chunks == []
    ensures Good(FromTop(c, env, now), env)
    decreases Flags(c), 0
  {
    if c.readReady { AfterReadOk(c.(readReady := false, readDeadline := None), env, now); }
  }

  lemma {:induction false} AfterReadOk(c: Conn, env: Env, now: nat)
    requires Running(c) && DataOk(c.io, env, !c.shouldClose) && (!c.shouldClose ==> Timed(c.io))
    ensures Good(AfterRead(c, env, now), env)
    decreases Flags(c), 2
  {
    if !c.shouldClose {
      OnReadableOk(c, env, now);
      var (d, ok) := OnReadable(c, env, now);
      if ok && !d.shouldClose { WriteLoopOk(d, env, now); }
    }
  }

  lemma {:induction false} WriteLoopOk(c: Conn, env: Env, now: nat)
    requires Running(c) && !c.shouldClose && DataOk(c.io, env, true) && Timed(c.io)
    ensures Good(WriteLoop(c, env, now), env)
    decreases Flags(c), 1
  {
    if c.io.chunks == [] { FromTopOk(c, env, now); }
    else if c.writeReady { AfterWriteOk(c.(writeReady := false, io := c.io.(writeDeadline := None)), env, now); }
  }

  lemma {:induction false} AfterWriteOk(c: Conn, env: Env, now: nat)
    requires Running(c) && DataOk(c.io, env, !c.shouldClose)
    ensures Good(AfterWrite(c, env, now), env)
    decreases Flags(c), 2
  {
    if !c.shouldClose {
      OnWritableOk(c, env, now);
      var (d, ok) := OnWritable(c, env, now);
      if ok && !d.shouldClose { WriteLoopOk(d, env, now); }
    }
  }

  // ---------------------------------------------------------------------------------------
  // Every call
  // ---------------------------------------------------------------------------------------

  lemma StartOk(env: Env, now: nat)
    ensures Good(Start(env, now), env) && WaitingToRead(Start(env, now))
  {
    StartOnTheWay([]);
    assert Parse([]) == Parsed([], [], false);
  }

  lemma NotifyReadableOk(c: Conn, env: Env, now: nat)
    requires Good(c, env)
    ensures Good(NotifyReadable(c, env, now), env)
  {
    if c.readWaiter {
      AfterReadOk(c.(state := Reading, readWaiter := false, readReady := false, readDeadline := None), env, now);
    }
  }

  lemma NotifyWritableOk(c: Conn, env: Env, now: nat)
    requires Good(c, env)
    ensures Good(NotifyWritable(c, env, now), env)
  {
    if c.writeWaiter {
      AfterWriteOk(c.(state := Writing, writeWaiter := false, writeReady := false,
                      io := c.io.(writeDeadline := None)), env, now);
    }
  }

  /** Once marked, the coroutine runs to its end at the next resumption. */
  lemma WakeAllFinishes(c: Conn, env: Env, now: nat)
    requires c.shouldClose && DataOk(c.io, env, false) && (c.pc == Finished ==> !c.readWaiter && !c.writeWaiter)
    requires c.pc != Finished ==> c.readWaiter || c.writeWaiter
    ensures var d := WakeAll(c, env, now); Good(d, env) && IsFinished(d) && d.coroutineOk == c.coroutineOk
  {
  }

  lemma MarkClosingOk(c: Conn, env: Env, now: nat)
    requires Good(c, env)
    ensures var d := MarkClosing(c, env, now); Good(d, env) && IsFinished(d)
  {
    FailedDataOk(c.io, env);
    WakeAllFinishes(Leaving(c), env, now);
  }

  /** A timeout ends the connection; before its deadline nothing changes. */
  lemma TickOk(c: Conn, env: Env, now: nat)
    requires Good(c, env)
    ensures var d := Tick(c, env, now);
            && Good(d, env)
            && (if !c.shouldClose && (|| (c.readDeadline.Some? && now >= c.readDeadline.value)
                                      || (c.io.writeDeadline.Some? && now >= c.io.writeDeadline.value))
                then IsFinished(d)
                else d == c)
  {
    FailedDataOk(c.io, env);
    if Tick(c, env, now) != c { WakeAllFinishes(Fail(c), env, now); }
  }

  lemma DeliverOk(c: Conn, env: Env, now: nat, r: Response)
    requires Good(c, env)
    ensures var (d, ok) := Deliver(c, env, now, r); Good(d, env)
  {
    EnqueueOk(c.io, env, now, r);
    EnqueueKeepsInput(c.io, env, now, r);
    var (io, ok) := Enqueue(c.io, env, now, r);
    if ok && c.readWaiter {
      AfterReadOk(c.(io := Handed(io, env.responses.serialise(r)), state := Reading, readWaiter := false,
                     readReady := false, readDeadline := None), env, now);
    }
  }

  // ---------------------------------------------------------------------------------------
  // Every run
  // ---------------------------------------------------------------------------------------

  datatype Call =
    | Readable(now: nat)
    | Writable(now: nat)
    | Close(now: nat)
    | Timer(now: nat)
    | PoolResult(now: nat, r: Response)

  function CallStep(c: Conn, env: Env, call: Call): (r: Conn)
    requires ChunksOk(c.io.chunks)
    ensures ChunksOk(r.io.chunks)
  {
    match call
    case Readable(now) => NotifyReadable(c, env, now)
    case Writable(now) => NotifyWritable(c, env, now)
    case Close(now) => MarkClosing(c, env, now)
    case Timer(now) => Tick(c, env, now)
    case PoolResult(now, r) => Deliver(c, env, now, r).0
  }

  function CallRun(c: Conn, env: Env, calls: seq<Call>): (r: Conn)
    requires ChunksOk(c.io.chunks)
    ensures ChunksOk(r.io.chunks)
    decreases |calls|
  {
    if |calls| == 0 then c else CallRun(CallStep(c, env, calls[0]), env, calls[1..])
  }

  lemma CallOk(c: Conn, env: Env, call: Call)
    requires Good(c, env)
    ensures Good(CallStep(c, env, call), env)
    ensures c.shouldClose ==> CallStep(c, env, call).shouldClose
  {
    match call
    case Readable(now) => NotifyReadableOk(c, env, now);
    case Writable(now) => NotifyWritableOk(c, env, now);
    case Close(now) => MarkClosingOk(c, env, now);
    case Timer(now) => TickOk(c, env, now);
    case PoolResult(now, r) => DeliverOk(c, env, now, r);
  }

  lemma {:induction false} CallRunOk(c: Conn, env: Env, calls: seq<Call>)
    requires Good(c, env)
    ensures Good(CallRun(c, env, calls), env)
    decreases |calls|
  {
    if |calls| > 0 {
      CallOk(c, env, calls[0]);
      CallRunOk(CallStep(c, env, calls[0]), env, calls[1..]);
    }
  }

  /** At every quiescent point of every run a connection is in exactly one of three shapes, and it is finished exactly
      when it should close. */
  lemma ThreeShapes(env: Env, start: nat, calls: seq<Call>)
    ensures var c := CallRun(Start(env, start), env, calls);
            && (WaitingToRead(c) || WaitingToWrite(c) || IsFinished(c))
            && !(WaitingToRead(c) && WaitingToWrite(c))
            && (c.pc == Finished <==> c.shouldClose)
  {
    StartOk(env, start);
    CallRunOk(Start(env, start), env, calls);
  }

  /** The bytes a connection has sent, received by the peer up to any point, decode to a prefix of what was queued; the
      unsent counter is exact and bounded; and the bodies served are those of the received stream, in order. */
  lemma StreamsInEveryRun(env: Env, start: nat, calls: seq<Call>, k: nat)
    ensures var c := CallRun(Start(env, start), env, calls).io;
            && c.pending == |Unsent(c.chunks)| <= env.maxWrite
            && Sendable(c.queued) && c.sent <= Frames(c.queued)
            && (c.chunks == [] ==> c.sent == Frames(c.queued))
            && (k <= |c.sent| ==> !Parse(c.sent[..k]).bad && Parse(c.sent[..k]).bodies <= c.queued)
            && c.taken <= Parse(c.received).bodies
  {
    StartOk(env, start);
    CallRunOk(Start(env, start), env, calls);
    var c := CallRun(Start(env, start), env, calls).io;
    var all := Frames(c.queued);
    assert c.sent == all[..|c.sent|];
    if k <= |c.sent| {
      assert c.sent[..k] == all[..k];
      PrefixRoundTrip(c.queued, k);
    }
  }

  /** `CloseConnection` marks, notifies twice, and then waits for the coroutine: by then it has always finished, so the
      wait never blocks. */
  lemma CloseFinishes(c: Conn, env: Env, now: nat)
    requires Good(c, env)
    ensures var d := NotifyWritable(NotifyReadable(MarkClosing(c, env, now), env, now), env, now);
            Good(d, env) && d.pc == Finished && d.io.chunks == c.io.chunks && d.io.dispatched == c.io.dispatched
  {
    MarkClosingOk(c, env, now);
    NotifyReadableOk(MarkClosing(c, env, now), env, now);
  }
}
