/** The connection object itself: its methods and loops, each proved to do what the functions in `Connection` say and,
    for the ones its owner or its coroutine calls, to keep what `ConnectionProofs` and `ConnectionAnswers` are about. */
module ConnectionCode {
  import opened Common
  import opened Framing
  import opened Rpc
  import opened Connection
  import opened ConnectionProofs
  import opened ConnectionAnswers
  import opened ConnectionReads
  import opened ReadBuffer

  /** Where the coroutine goes on. */
  datatype Point = Top | ReadDone | Writes | WriteDone | Suspended

  /** The rest of the coroutine's run from a point. */
  function Continue(c: Conn, at: Point, env: Env, now: nat): Conn
    requires ChunksOk(c.io.chunks)
  {
    match at
    case Top => FromTop(c, env, now)
    case ReadDone => AfterRead(c, env, now)
    case Writes => WriteLoop(c, env, now)
    case WriteDone => AfterWrite(c, env, now)
    case Suspended => c
  }

  /** One piece of the coroutine: up to the next point. */
  function StepAt(c: Conn, at: Point, env: Env, now: nat): (r: (Conn, Point))
    requires ChunksOk(c.io.chunks)
    ensures ChunksOk(r.0.io.chunks)
  {
    match at
    case Top => TopStep(c, env, now)
    case ReadDone => ReadStep(c, env, now)
    case Writes => WritesStep(c, env, now)
    case WriteDone => WriteStep(c, env, now)
    case Suspended => (c, Suspended)
  }

  function ReadStep(c: Conn, env: Env, now: nat): (r: (Conn, Point))
    requires ChunksOk(c.io.chunks)
    ensures ChunksOk(r.0.io.chunks)
  {
    if c.shouldClose then (Finish(c), Suspended) else var (d, ok) := OnReadable(c, env, now); Checked(d, ok)
  }

  function WriteStep(c: Conn, env: Env, now: nat): (r: (Conn, Point))
    requires ChunksOk(c.io.chunks)
    ensures ChunksOk(r.0.io.chunks)
  {
    if c.shouldClose then (Finish(c), Suspended) else var (d, ok) := OnWritable(c, env, now); Checked(d, ok)
  }

  /** Every piece uses up a readiness flag or comes to a lower point. */
  lemma StepAtDecreases(c: Conn, at: Point, env: Env, now: nat)
    requires ChunksOk(c.io.chunks) && at != Suspended
    ensures var (d, next) := StepAt(c, at, env, now);
            Flags(d) < Flags(c) || (Flags(d) == Flags(c) && Rank(next) < Rank(at))
  {
    match at
    case Top =>
    case ReadDone => FlagsKeptByReading(c, env, now);
    case Writes =>
    case WriteDone => FlagsKeptByWriting(c, env, now);
  }

  lemma FlagsKeptByReading(c: Conn, env: Env, now: nat)
    requires ChunksOk(c.io.chunks)
    ensures Flags(OnReadable(c, env, now).0) == Flags(c)
  {
  }

  lemma FlagsKeptByWriting(c: Conn, env: Env, now: nat)
    requires ChunksOk(c.io.chunks)
    ensures Flags(OnWritable(c, env, now).0) == Flags(c)
  {
  }

  function TopStep(c: Conn, env: Env, now: nat): (Conn, Point)
  {
    if c.shouldClose then (Finish(c), Suspended)
    else if c.readReady then (c.(readReady := false, readDeadline := None), ReadDone)
    else
      (c.(pc := AtRead, readWaiter := true, state := Reading, readDeadline := Some(now + env.readTimeout)), Suspended)
  }

  function WritesStep(c: Conn, env: Env, now: nat): (Conn, Point)
  {
    if c.io.chunks == [] then (c, Top)
    else if c.writeReady then (c.(writeReady := false, io := c.io.(writeDeadline := None)), WriteDone)
    else (c.(pc := AtWrite, writeWaiter := true, state := Writing,
             io := c.io.(writeDeadline := Some(now + env.writeTimeout))), Suspended)
  }

  /** The checks after a read or a write. */
  function Checked(c: Conn, ok: bool): (Conn, Point)
  {
    if !ok then (FinishFailed(c), Suspended) else if c.shouldClose then (Finish(c), Suspended) else (c, Writes)
  }

  /** Piece by piece is the same as in one go. */
  lemma StepAtContinues(c: Conn, at: Point, env: Env, now: nat)
    requires ChunksOk(c.io.chunks)
    ensures var (d, next) := StepAt(c, at, env, now); Continue(c, at, env, now) == Continue(d, next, env, now)
  {
    match at
    case Top => TopContinues(c, env, now);
    case ReadDone => ReadContinues(c, env, now);
    case Writes => WritesContinues(c, env, now);
    case WriteDone => WriteContinues(c, env, now);
    case Suspended =>
  }

  lemma TopContinues(c: Conn, env: Env, now: nat)
    requires ChunksOk(c.io.chunks)
    ensures var (d, next) := TopStep(c, env, now); FromTop(c, env, now) == Continue(d, next, env, now)
  {
  }

  lemma ReadContinues(c: Conn, env: Env, now: nat)
    requires ChunksOk(c.io.chunks)
    ensures var (d, next) := ReadStep(c, env, now); AfterRead(c, env, now) == Continue(d, next, env, now)
  {
  }

  lemma WritesContinues(c: Conn, env: Env, now: nat)
    requires ChunksOk(c.io.chunks)
    ensures var (d, next) := WritesStep(c, env, now); WriteLoop(c, env, now) == Continue(d, next, env, now)
  {
  }

  lemma WriteContinues(c: Conn, env: Env, now: nat)
    requires ChunksOk(c.io.chunks)
    ensures var (d, next) := WriteStep(c, env, now); AfterWrite(c, env, now) == Continue(d, next, env, now)
  {
  }

  function Rank(at: Point): nat
  {
    match at
    case Suspended => 0
    case Top => 1
    case Writes => 2
    case ReadDone => 3
    case WriteDone => 3
  }

  datatype Control = Control(
    state: State,
    shouldClose: bool,
    readReady: bool,
    writeReady: bool,
    readDeadline: Option<nat>,
    readWaiter: bool,
    writeWaiter: bool,
    pc: Pc,
    coroutineOk: bool,
    recvs: nat,
    flushes: nat)

  function Joined(io: Io, k: Control): Conn
  {
    Conn(io, k.state, k.shouldClose, k.readReady, k.writeReady, k.readDeadline, k.readWaiter, k.writeWaiter, k.pc,
         k.coroutineOk, k.recvs, k.flushes)
  }

  /** What a read means.  Bodies are only ever answered or forwarded; a failure closes; unless the connection is to
      close, the bytes left over are no whole frame and the write deadline is armed exactly while something is queued.
      And it is to close exactly if the socket did not just run dry, a header is bad or a body refused; otherwise it has
      taken every complete body received. */
  ghost predicate ReadMeans(c: Conn, d: Conn, ok: bool, env: Env)
  {
    && (Running(c) && !c.shouldClose && InOrder(c.io, env, true) ==>
          && Continues(BookOf(c.io), BookOf(d.io), env) && (!ok ==> d.shouldClose)
          && (if d.shouldClose then DataOk(d.io, env, false) else InOrder(d.io, env, true)))
    && (OnTheWay(c.io.received, c.io.taken, c.io.inbuf) && !c.shouldClose ==>
          var run := env.recv(c.recvs);
          && (ok <==> run.end.PeerClosed? || ReadsOn(c.io, run, env))
          && (d.shouldClose <==> !ReadsOn(c.io, run, env))
          && (!d.shouldClose ==> d.io.taken == Parse(d.io.received).bodies))
  }

  lemma OnReadableMeans(c: Conn, env: Env, now: nat)
    ensures var (d, ok) := OnReadable(c, env, now); ReadMeans(c, d, ok, env)
  {
    if Running(c) && !c.shouldClose && InOrder(c.io, env, true) { OnReadableSound(c, env, now); }
    if OnTheWay(c.io.received, c.io.taken, c.io.inbuf) && !c.shouldClose { OnReadableExactly(c, env, now); }
  }

  class ServerConnection {
    const env: Env
    const readBuffer: Buffer
    var writeBuffer: seq<Chunk>
    var pendingWriteBytes: nat
    var writeDeadline: Option<nat>
    var nextRequestSequence: nat

    /** The flags, the read deadline, the waiters and the coroutine's place. */
    var control: Control

    /** The histories; its other components are not used. */
    ghost var log: Io

    ghost predicate Valid()
      reads this, readBuffer, readBuffer.data
    {
      readBuffer.Valid() && ChunksOk(writeBuffer)
    }

    ghost function Data(): Io
      reads this, readBuffer
    {
      log.(inbuf := readBuffer.unread, chunks := writeBuffer, pending := pendingWriteBytes,
           writeDeadline := writeDeadline, sequence := nextRequestSequence)
    }

    ghost function View(): Conn
      reads this, readBuffer
    {
      Joined(Data(), control)
    }

    constructor (env: Env)
      ensures Valid() && fresh(readBuffer) && fresh(readBuffer.data) && this.env == env
      ensures View() == Conn(EmptyIo, Open, false, false, false, None, false, false, AtRead, true, 0, 0)
    {
      this.env := env;
      readBuffer := new Buffer(8192);
      writeBuffer, pendingWriteBytes, writeDeadline, nextRequestSequence := [], 0, None, 0;
      control := Control(Open, false, false, false, None, false, false, AtRead, true, 0, 0);
      log := EmptyIo;
    }

    // -------------------------------------------------------------------------------------
    // Writing
    // -------------------------------------------------------------------------------------

    /** `QueueResponse` with the deadline that `EnqueueResponse` arms on success: the unsent bytes grow by exactly the
        frame of the response, or it is refused because it cannot be framed or would take them beyond the limit. */
    method EnqueueResponse(response: Response, now: nat) returns (ok: bool)
      requires Valid()
      modifies this`writeBuffer, this`pendingWriteBytes, this`writeDeadline, this`log
      ensures Valid() && (Data(), ok) == Enqueue(old(Data()), env, now, response)
      ensures old(WriteOk(Data(), env)) ==>
                var body := env.responses.serialise(response);
                && WriteOk(Data(), env)
                && (ok <==> ValidLength(|body|) && |old(Unsent(writeBuffer))| + |Frame(body)| <= env.maxWrite)
                && (ok ==> Unsent(writeBuffer) == old(Unsent(writeBuffer)) + Frame(body) && writeDeadline.Some?)
                && (!ok ==> Data() == old(Data()))
    {
      if WriteOk(Data(), env) { EnqueueOk(Data(), env, now, response); }
      var body := env.responses.serialise(response);
      if !ValidLength(|body|) { return false; }
      var frame := Frame(body);
      if pendingWriteBytes + |frame| > env.maxWrite { return false; }
      pendingWriteBytes := pendingWriteBytes + |frame|;
      writeBuffer := writeBuffer + [Chunk(frame, 0)];
      log := log.(queued := log.queued + [body]);
      writeDeadline := Some(now + env.writeTimeout);
      return true;
    }

    /** The loop over `send`; the kernel's answers are given.  It goes on until the queue is empty or the kernel stops
        it, and fails exactly on an error or a write of nothing. */
    method FlushWrites(results: seq<SendOutcome>) returns (ok: bool)
      requires Valid()
      modifies this`writeBuffer, this`pendingWriteBytes, this`log
      ensures Valid() && (Data(), ok) == Flush(old(Data()), results)
      ensures exists k: nat :: FlushedBy(old(Data()), Data(), ok, results, k)
    {
      ghost var k := FlushExactly(Data(), results);
      var i := 0;
      while writeBuffer != [] && i < |results|
        invariant i <= |results| && Valid()
        invariant Flush(Data(), results[i..]) == Flush(old(Data()), results)
        decreases |results| - i
      {
        assert results[i..][0] == results[i] && results[i..][1..] == results[i + 1..];
        match results[i] {
          case SendInterrupted =>
          case SendWouldBlock => return true;
          case SendError => return false;
          case Sent(n) =>
            if n == 0 { return false; }
            Advance(n);
        }
        i := i + 1;
      }
      return true;
    }

    /** rc > 0: move the first chunk's offset, and pop the chunk when it is done. */
    method Advance(n: nat)
      requires Valid() && writeBuffer != [] && n > 0
      modifies this`writeBuffer, this`pendingWriteBytes, this`log
      ensures Valid() && Data() == SendSome(old(Data()), n)
    {
      var chunk := writeBuffer[0];
      var remaining := |chunk.data| - chunk.offset;
      var rc := if n > remaining then remaining else n;
      log := log.(sent := log.sent + chunk.data[chunk.offset..chunk.offset + rc]);
      pendingWriteBytes := if pendingWriteBytes >= rc then pendingWriteBytes - rc else 0;
      if chunk.offset + rc == |chunk.data| {
        writeBuffer := writeBuffer[1..];
      } else {
        writeBuffer := writeBuffer[0 := Chunk(chunk.data, chunk.offset + rc)];
      }
    }

    // -------------------------------------------------------------------------------------
    // Reading
    // -------------------------------------------------------------------------------------

    /** `ReadFromSocket`: append what `recv` gives until it would block or ends. */
    method ReadFromSocket(run: RecvRun)
      requires Valid()
      modifies this`log, readBuffer, readBuffer.data
      ensures Valid() && Data() == Receive(old(Data()), Flatten(run.pieces))
      ensures readBuffer.data == old(readBuffer.data) || fresh(readBuffer.data)
    {
      var i := 0;
      while i < |run.pieces|
        invariant i <= |run.pieces| && readBuffer.Valid() && log == old(log)
        invariant readBuffer.data == old(readBuffer.data) || fresh(readBuffer.data)
        invariant readBuffer.unread == old(readBuffer.unread) + Flatten(run.pieces[..i])
      {
        FlattenSnoc(run.pieces[..i], run.pieces[i]);
        assert run.pieces[..i + 1] == run.pieces[..i] + [run.pieces[i]];
        readBuffer.Append(run.pieces[i]);
        i := i + 1;
      }
      assert run.pieces[..i] == run.pieces;
      log := log.(received := log.received + Flatten(run.pieces));
    }

    /** `TryParseRequests`: every complete frame in the buffer, until one is refused.  It succeeds exactly if no header
        is bad and no body refused, and then has taken them all; a frame that is not complete is left for later. */
    method TryParseRequests(now: nat) returns (ok: bool)
      requires Valid()
      modifies this`writeBuffer, this`pendingWriteBytes, this`writeDeadline, this`nextRequestSequence, this`log,
               readBuffer`readIndex, readBuffer`writeIndex, readBuffer`unread
      ensures Valid() && (Data(), ok) == TakeRequests(old(Data()), env, now)
      ensures TookAll(old(Data()), Data(), ok, env, Parse(old(readBuffer.unread)))
    {
      TakesExactly(Data(), env, now);
      var head := LookAhead(readBuffer);
      ok := true;
      while head.Whole? && ok
        invariant Valid() && readBuffer.data == old(readBuffer.data)
        invariant head == FirstFrame(readBuffer.unread)
        invariant ok ==> TakeRequests(Data(), env, now) == TakeRequests(old(Data()), env, now)
        invariant !ok ==> (Data(), false) == TakeRequests(old(Data()), env, now)
        decreases ok, |readBuffer.unread|
      {
        ok := TakeOneRequest(head.n, now);
        head := LookAhead(readBuffer);
      }
      if ok { ok := head.Short?; }
    }

    method PeekBody(n: nat) returns (body: seq<byte>)
      requires Valid() && HEADER_BYTES + n <= |readBuffer.unread|
      ensures body == readBuffer.unread[HEADER_BYTES..HEADER_BYTES + n]
    {
      var frame := readBuffer.Peek(HEADER_BYTES + n);
      body := frame[HEADER_BYTES..];
    }

    /** The body in front is answered or forwarded, and then consumed; or it is refused and stays. */
    method TakeOneRequest(n: nat, now: nat) returns (ok: bool)
      requires Valid() && FirstFrame(readBuffer.unread) == Whole(n)
      modifies this`writeBuffer, this`pendingWriteBytes, this`writeDeadline, this`nextRequestSequence, this`log,
               readBuffer`readIndex, readBuffer`writeIndex, readBuffer`unread
      ensures Valid() && (Data(), ok) == TakeRequest(old(Data()), env, now, n)
      ensures ok ==> |readBuffer.unread| < |old(readBuffer.unread)|
      ensures old(InOrder(Data(), env, false)) ==>
                InOrder(Data(), env, false) && Continues(old(BookOf(Data())), BookOf(Data()), env)
    {
      if InOrder(Data(), env, false) { TakeRequestSound(Data(), env, now, n); }
      var body := PeekBody(n);
      ProcessKeepsInput(Data(), env, now, body);
      ok := ProcessBody(body, now);
      if ok {
        readBuffer.Retrieve(HEADER_BYTES + n);
        log := log.(taken := log.taken + [body]);
      }
    }

    /** The three ways of handling one body. */
    method ProcessBody(body: seq<byte>, now: nat) returns (ok: bool)
      requires Valid()
      modifies this`writeBuffer, this`pendingWriteBytes, this`writeDeadline, this`nextRequestSequence, this`log
      ensures Valid() && (Data(), ok) == Process(old(Data()), env, now, body)
    {
      var parsed := env.requests.parse(body);
      if parsed.None? {
        ok := EnqueueResponse(ParseErrorReply, now);
      } else {
        var request := parsed.value;
        if request.service == HEARTBEAT_SERVICE {
          ok := EnqueueResponse(HeartbeatReply(request), now);
        } else if env.pooled {
          nextRequestSequence := nextRequestSequence + 1;
          ok := env.accepts(nextRequestSequence);
          if ok { log := log.(dispatched := log.dispatched + [Dispatch(nextRequestSequence, request)]); }
        } else {
          ok := EnqueueResponse(Serve(env.registry, request), now);
        }
      }
    }

    // -------------------------------------------------------------------------------------
    // Events
    // -------------------------------------------------------------------------------------

    method SetFailed()
      requires Valid()
      modifies this`control, this`writeDeadline
      ensures Valid() && View() == Fail(old(View()))
    {
      control := control.(shouldClose := true, state := Errored, readDeadline := None);
      writeDeadline := None;
    }

    method SetClosing()
      requires Valid()
      modifies this`control, this`writeDeadline
      ensures Valid() && View() == Leaving(old(View()))
    {
      control := control.(state := if control.state.Closed? || control.state.Errored? then control.state else Closing,
                          shouldClose := true, readDeadline := None);
      writeDeadline := None;
    }

    method ReadAndParse(run: RecvRun, now: nat) returns (verdict: Verdict)
      requires Valid()
      modifies this`writeBuffer, this`pendingWriteBytes, this`writeDeadline, this`nextRequestSequence,
               this`log, readBuffer, readBuffer.data
      ensures Valid() && (Data(), verdict) == ReadData(old(Data()), run, env, now)
      ensures readBuffer.data == old(readBuffer.data) || fresh(readBuffer.data)
    {
      ReadFromSocket(run);
      match run.end {
        case PeerClosed => return PeerGone;
        case RecvError(_) => return Broken;
        case WouldBlock =>
          var readable := readBuffer.ReadableBytes();
          if readable == 0 { return NoData; }
          var ok := TryParseRequests(now);
          verdict := if ok then Served else Broken;
      }
    }

    /** The object's `OnReadable`: the connection is marked to close exactly if the socket did not just run dry, a
        header is bad or a body refused; bodies are only ever answered or forwarded, each once and in order, and unless
        the connection is to close, the bytes left over are no whole frame and the write deadline is armed exactly while
        something is queued. */
    method HandleReadable(now: nat) returns (ok: bool)
      requires Valid()
      modifies this`writeBuffer, this`pendingWriteBytes, this`writeDeadline, this`nextRequestSequence, this`log,
               this`control, readBuffer, readBuffer.data
      ensures Valid() && (View(), ok) == OnReadable(old(View()), env, now)
      ensures readBuffer.data == old(readBuffer.data) || fresh(readBuffer.data)
      ensures ReadMeans(old(View()), View(), ok, env)
    {
      OnReadableMeans(View(), env, now);
      ok := ReadOnce(now);
    }

    method ReadOnce(now: nat) returns (ok: bool)
      requires Valid()
      modifies this`writeBuffer, this`pendingWriteBytes, this`writeDeadline, this`nextRequestSequence, this`log,
               this`control, readBuffer, readBuffer.data
      ensures Valid() && (View(), ok) == OnReadable(old(View()), env, now)
      ensures readBuffer.data == old(readBuffer.data) || fresh(readBuffer.data)
    {
      var verdict := ReadAndParse(env.recv(control.recvs), now);
      ApplyVerdict(verdict);
      ok := verdict != Broken;
    }

    method ApplyVerdict(verdict: Verdict)
      requires Valid()
      modifies this`writeDeadline, this`control
      ensures Valid() && View() == Judge(old(View()), verdict)
    {
      control := control.(recvs := control.recvs + 1);
      match verdict {
        case NoData =>
        case Served => control := control.(state := Open);
        case PeerGone => control := control.(state := Closing, shouldClose := true);
        case Broken => SetFailed();
      }
    }

    /** The object's `OnWritable`: what is taken, answered and forwarded stays, bytes only move from unsent to sent, and
        unless the connection is to close, the write deadline is armed exactly while something is left. */
    method HandleWritable(now: nat) returns (ok: bool)
      requires Valid()
      modifies this`writeBuffer, this`pendingWriteBytes, this`log, this`control, this`writeDeadline
      ensures Valid() && (View(), ok) == OnWritable(old(View()), env, now)
      ensures old(Running(View()) && !control.shouldClose && DataOk(Data(), env, true)
              && Answers(BookOf(Data()), env)) ==>
                && BookOf(Data()) == old(BookOf(Data())) && (!ok ==> control.shouldClose)
                && (if control.shouldClose then DataOk(Data(), env, false) else InOrder(Data(), env, true))
    {
      if Running(View()) && !control.shouldClose && DataOk(Data(), env, true) && Answers(BookOf(Data()), env) {
        OnWritableSound(View(), env, now);
      }
      ok := FlushOnce();
      if ok { AfterFlush(now); } else { SetFailed(); }
    }

    method FlushOnce() returns (ok: bool)
      requires Valid()
      modifies this`writeBuffer, this`pendingWriteBytes, this`log, this`control
      ensures Valid() && (View(), ok) == Flushed(old(View()), env)
    {
      ok := FlushWrites(env.send(control.flushes));
      control := control.(flushes := control.flushes + 1);
    }

    method AfterFlush(now: nat)
      requires Valid()
      modifies this`control, this`writeDeadline
      ensures Valid() && View() == Wrote(old(View()), env, now)
    {
      if writeBuffer == [] {
        control := control.(state := Open);
        writeDeadline := None;
      } else {
        writeDeadline := Some(now + env.writeTimeout);
      }
    }

    // -------------------------------------------------------------------------------------
    // The coroutine
    // -------------------------------------------------------------------------------------

    /** `HandleConnectionCo` from a resumption point until it suspends or returns. */
    method Resume(start: Point, now: nat)
      requires Valid()
      modifies this, readBuffer, readBuffer.data
      ensures Valid() && View() == Continue(old(View()), start, env, now)
      ensures readBuffer.data == old(readBuffer.data) || fresh(readBuffer.data)
    {
      var at := start;
      while at != Suspended
        invariant Valid()
        invariant readBuffer.data == old(readBuffer.data) || fresh(readBuffer.data)
        invariant Continue(View(), at, env, now) == Continue(old(View()), start, env, now)
        decreases Flags(View()), Rank(at)
      {
        StepAtContinues(View(), at, env, now);
        StepAtDecreases(View(), at, env, now);
        at := Proceed(at, now);
      }
    }

    method Proceed(at: Point, now: nat) returns (next: Point)
      requires Valid() && at != Suspended
      modifies this, readBuffer, readBuffer.data
      ensures Valid() && (View(), next) == StepAt(old(View()), at, env, now)
      ensures readBuffer.data == old(readBuffer.data) || fresh(readBuffer.data)
    {
      match at {
        case Top => next := AtTop(now);
        case ReadDone => next := AtReadDone(now);
        case Writes => next := AtWrites(now);
        case WriteDone => next := AtWriteDone(now);
      }
    }

    method AtTop(now: nat) returns (next: Point)
      requires Valid()
      modifies this`control
      ensures Valid() && (View(), next) == TopStep(old(View()), env, now)
    {
      if control.shouldClose { control := control.(pc := Finished); return Suspended; }
      if control.readReady {
        control := control.(readReady := false, readDeadline := None);
        return ReadDone;
      }
      control := control.(pc := AtRead, readWaiter := true, state := Reading,
          readDeadline := Some(now + env.readTimeout));
      return Suspended;
    }

    method AtReadDone(now: nat) returns (next: Point)
      requires Valid()
      modifies this, readBuffer, readBuffer.data
      ensures Valid() && (View(), next) == ReadStep(old(View()), env, now)
      ensures readBuffer.data == old(readBuffer.data) || fresh(readBuffer.data)
    {
      if control.shouldClose { control := control.(pc := Finished); return Suspended; }
      var ok := HandleReadable(now);
      next := Check(ok);
    }

    method AtWrites(now: nat) returns (next: Point)
      requires Valid()
      modifies this`control, this`writeDeadline
      ensures Valid() && (View(), next) == WritesStep(old(View()), env, now)
    {
      if writeBuffer == [] { return Top; }
      if control.writeReady {
        control := control.(writeReady := false);
        writeDeadline := None;
        return WriteDone;
      }
      control := control.(pc := AtWrite, writeWaiter := true, state := Writing);
      writeDeadline := Some(now + env.writeTimeout);
      return Suspended;
    }

    method AtWriteDone(now: nat) returns (next: Point)
      requires Valid()
      modifies this
      ensures Valid() && (View(), next) == WriteStep(old(View()), env, now)
    {
      if control.shouldClose { control := control.(pc := Finished); return Suspended; }
      var ok := HandleWritable(now);
      next := Check(ok);
    }

    method Check(ok: bool) returns (next: Point)
      requires Valid()
      modifies this`control
      ensures Valid() && (View(), next) == Checked(old(View()), ok)
    {
      if !ok { control := control.(pc := Finished, coroutineOk := false); return Suspended; }
      if control.shouldClose { control := control.(pc := Finished); return Suspended; }
      return Writes;
    }

    // -------------------------------------------------------------------------------------
    // The calls a worker makes
    // -------------------------------------------------------------------------------------

    method ResumeReader(now: nat)
      requires Valid()
      modifies this, readBuffer, readBuffer.data
      ensures Valid() && View() == ResumeRead(old(View()), env, now)
      ensures readBuffer.data == old(readBuffer.data) || fresh(readBuffer.data)
    {
      if control.readWaiter {
        control := control.(readWaiter := false, readReady := false, readDeadline := None);
        Resume(ReadDone, now);
      }
    }

    method ResumeWriter(now: nat)
      requires Valid()
      modifies this, readBuffer, readBuffer.data
      ensures Valid() && View() == ResumeWrite(old(View()), env, now)
      ensures readBuffer.data == old(readBuffer.data) || fresh(readBuffer.data)
    {
      if control.writeWaiter {
        control := control.(writeWaiter := false, writeReady := false);
        writeDeadline := None;
        Resume(WriteDone, now);
      }
    }

    method ResumeBoth(now: nat)
      requires Valid()
      modifies this, readBuffer, readBuffer.data
      ensures Valid() && View() == WakeAll(old(View()), env, now)
      ensures readBuffer.data == old(readBuffer.data) || fresh(readBuffer.data)
    {
      ResumeReader(now);
      ResumeWriter(now);
    }

    method OnReadEvent(now: nat)
      requires Valid() && Good(View(), env)
      modifies this, readBuffer, readBuffer.data
      ensures Valid() && Good(View(), env) && View() == NotifyReadable(old(View()), env, now)
      ensures readBuffer.data == old(readBuffer.data) || fresh(readBuffer.data)
    {
      NotifyReadableOk(View(), env, now);
      control := control.(readReady := true, state := Reading);
      ResumeReader(now);
    }

    method OnWriteEvent(now: nat)
      requires Valid() && Good(View(), env)
      modifies this, readBuffer, readBuffer.data
      ensures Valid() && Good(View(), env) && View() == NotifyWritable(old(View()), env, now)
      ensures readBuffer.data == old(readBuffer.data) || fresh(readBuffer.data)
    {
      NotifyWritableOk(View(), env, now);
      control := control.(writeReady := true, state := Writing);
      ResumeWriter(now);
    }

    method BeginClosing(now: nat)
      requires Valid() && Good(View(), env)
      modifies this, readBuffer, readBuffer.data
      ensures Valid() && Good(View(), env) && IsFinished(View()) && View() == MarkClosing(old(View()), env, now)
      ensures readBuffer.data == old(readBuffer.data) || fresh(readBuffer.data)
    {
      MarkClosingOk(View(), env, now);
      SetClosing();
      ResumeBoth(now);
    }

    method EnterError(now: nat)
      requires Valid()
      modifies this, readBuffer, readBuffer.data
      ensures Valid() && View() == WakeAll(Fail(old(View())), env, now)
      ensures readBuffer.data == old(readBuffer.data) || fresh(readBuffer.data)
    {
      SetFailed();
      ResumeBoth(now);
    }

    /** A deadline that has passed ends the connection and its coroutine; otherwise nothing changes. */
    method CheckDeadlines(now: nat)
      requires Valid() && Good(View(), env)
      modifies this, readBuffer, readBuffer.data
      ensures Valid() && Good(View(), env) && View() == Tick(old(View()), env, now)
      ensures readBuffer.data == old(readBuffer.data) || fresh(readBuffer.data)
      ensures if !old(control.shouldClose)
              && (|| (old(control.readDeadline).Some? && now >= old(control.readDeadline).value)
                                               || (old(writeDeadline).Some? && now >= old(writeDeadline).value))
              then IsFinished(View())
              else View() == old(View())
    {
      TickOk(View(), env, now);
      if control.state.Closed? || control.state.Errored? || control.shouldClose { return; }
      if control.readDeadline.Some? && now >= control.readDeadline.value {
        EnterError(now);
        return;
      }
      if writeDeadline.Some? && now >= writeDeadline.value {
        EnterError(now);
      }
    }

    /** `EnqueueResponse` of a pool result and the `NotifyReadable` that follows it. */
    method HandBack(response: Response, now: nat) returns (ok: bool)
      requires Valid() && Good(View(), env)
      modifies this, readBuffer, readBuffer.data
      ensures Valid() && Good(View(), env) && (View(), ok) == Deliver(old(View()), env, now, response)
      ensures readBuffer.data == old(readBuffer.data) || fresh(readBuffer.data)
    {
      DeliverOk(View(), env, now, response);
      ok := QueueResult(response, now);
      if ok {
        control := control.(readReady := true, state := Reading);
        ResumeReader(now);
      }
    }

    method QueueResult(response: Response, now: nat) returns (ok: bool)
      requires Valid()
      modifies this`writeBuffer, this`pendingWriteBytes, this`writeDeadline, this`log
      ensures Valid()
      ensures var (io, done) := Enqueue(old(Data()), env, now, response);
              ok == done && Data() == if ok then Handed(io, env.responses.serialise(response)) else old(Data())
    {
      ok := EnqueueResponse(response, now);
      if ok { log := log.(handed := log.handed + [env.responses.serialise(response)]); }
    }
  }
}
