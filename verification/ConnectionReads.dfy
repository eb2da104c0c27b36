/** When a server connection must go on: exactly which reads and writes end it, and that otherwise it takes every
    request of its stream, however the stream is cut. */
module ConnectionReads {
  import opened Common
  import opened Framing
  import opened Rpc
  import opened Connection
  import opened ConnectionProofs
  import opened ConnectionAnswers

  // ---------------------------------------------------------------------------------------
  // Which bodies are accepted
  // ---------------------------------------------------------------------------------------

  /** The size of the answer to a body that the connection answers itself. */
  function AnswerSize(env: Env, body: seq<byte>): nat { |env.responses.serialise(Answer(env, body))| }

  /** None of the bodies is refused by a connection with so many unsent bytes and so many requests dispatched: the
      dispatcher takes those left to the pool, and the answers to the others, of 1 byte to 4 MiB, fit under the
      limit. */
  predicate Acceptable(env: Env, unsent: nat, sequence: nat, bodies: seq<seq<byte>>)
    decreases |bodies|
  {
    |bodies| == 0
    || (var n := AnswerSize(env, bodies[0]);
        if ForPool(env, bodies[0]) then
          env.accepts(sequence + 1) && Acceptable(env, unsent, sequence + 1, bodies[1..])
        else
          1 <= n <= 4194304 && unsent + 4 + n <= env.maxWrite && Acceptable(env, unsent + 4 + n, sequence, bodies[1..]))
  }

  /** Body is accepted by such a connection. */
  predicate Accepts(env: Env, unsent: nat, sequence: nat, body: seq<byte>)
  {
    if ForPool(env, body) then env.accepts(sequence + 1)
    else 1 <= AnswerSize(env, body) <= 4194304 && unsent + 4 + AnswerSize(env, body) <= env.maxWrite
  }

  /** From `c` to `d` one body has been taken. */
  predicate TookOne(c: Io, d: Io, env: Env, body: seq<byte>)
  {
    && d.received == c.received && d.taken == c.taken + [body]
    && d.sequence == c.sequence + (if ForPool(env, body) then 1 else 0)
    && d.pending == c.pending + (if ForPool(env, body) then 0 else 4 + AnswerSize(env, body))
  }

  lemma TakeRequestExactly(c: Io, env: Env, now: nat, n: nat)
    requires FirstFrame(c.inbuf) == Whole(n)
    ensures var (d, ok) := TakeRequest(c, env, now, n); var body := c.inbuf[HEADER_BYTES..HEADER_BYTES + n];
            && d.received == c.received && (ok <==> Accepts(env, c.pending, c.sequence, body))
            && (ok ==> d.inbuf == c.inbuf[HEADER_BYTES + n..] && TookOne(c, d, env, body))
  {
  }

  /** From `c` to `d` everything that `all` reads has been taken, or something in it stopped that. */
  predicate TookAll(c: Io, d: Io, ok: bool, env: Env, all: Parsed)
  {
    && d.received == c.received
    && (ok <==> !all.bad && Acceptable(env, c.pending, c.sequence, all.bodies))
    && (ok ==> d.taken == c.taken + all.bodies && d.inbuf == all.rest)
    && (ok ==> d.pending == c.pending + Size(env, all.bodies) && d.sequence == c.sequence + Pooled(env, all.bodies))
  }

  lemma TookMore(c: Io, c1: Io, d: Io, ok: bool, env: Env, body: seq<byte>, rest: Parsed)
    requires Accepts(env, c.pending, c.sequence, body) && TookOne(c, c1, env, body) && TookAll(c1, d, ok, env, rest)
    ensures TookAll(c, d, ok, env, Behind([body], rest))
  {
    OneMoreTaken(c.taken, body, rest.bodies);
    assert ([body] + rest.bodies)[1..] == rest.bodies;
  }

  lemma TookNone(c: Io, d: Io, env: Env, body: seq<byte>, rest: Parsed)
    requires !Accepts(env, c.pending, c.sequence, body) && d.received == c.received
    ensures TookAll(c, d, false, env, Behind([body], rest))
  {
  }

  /** `TryParseRequests` succeeds exactly if the unread bytes hold no bad header and no body that is refused; then it
      has taken every complete body and leaves the rest. */
  lemma {:induction false} TakesExactly(c: Io, env: Env, now: nat)
    ensures var (d, ok) := TakeRequests(c, env, now); TookAll(c, d, ok, env, Parse(c.inbuf))
    decreases |c.inbuf|
  {
    match FirstFrame(c.inbuf)
    case Short =>
    case BadLength =>
    case Whole(n) =>
      var (c1, took) := TakeRequest(c, env, now, n);
      if took { TakesExactly(c1, env, now); }
      FirstTaken(c, env, now, n);
  }

  lemma FirstTaken(c: Io, env: Env, now: nat, n: nat)
    requires FirstFrame(c.inbuf) == Whole(n)
    requires var (c1, took) := TakeRequest(c, env, now, n);
             took ==> var (d, ok) := TakeRequests(c1, env, now); TookAll(c1, d, ok, env, Parse(c1.inbuf))
    ensures var (d, ok) := TakeRequests(c, env, now); TookAll(c, d, ok, env, Parse(c.inbuf))
  {
    var (c1, took) := TakeRequest(c, env, now, n);
    var (d, ok) := TakeRequests(c, env, now);
    var body, rest := c.inbuf[HEADER_BYTES..HEADER_BYTES + n], Parse(c.inbuf[HEADER_BYTES + n..]);
    TakeRequestExactly(c, env, now, n);
    assert Parse(c.inbuf) == Behind([body], rest);
    if took { TookMore(c, c1, d, ok, env, body, rest); } else { TookNone(c, d, env, body, rest); }
  }

  lemma OneMoreTaken<T>(a: seq<T>, x: T, b: seq<T>)
    ensures (a + [x]) + b == a + ([x] + b)
  {
  }

  /** How many bytes the connection's own answers to the bodies take on the wire. */
  function Size(env: Env, bodies: seq<seq<byte>>): nat
  {
    if |bodies| == 0 then 0
    else (if ForPool(env, bodies[0]) then 0 else 4 + AnswerSize(env, bodies[0])) + Size(env, bodies[1..])
  }

  /** How many of the bodies are left to the pool. */
  function Pooled(env: Env, bodies: seq<seq<byte>>): nat
  {
    if |bodies| == 0 then 0 else (if ForPool(env, bodies[0]) then 1 else 0) + Pooled(env, bodies[1..])
  }

  // ---------------------------------------------------------------------------------------
  // One read
  // ---------------------------------------------------------------------------------------

  /** A read that does not end the connection. */
  predicate ReadsOn(c: Io, run: RecvRun, env: Env)
  {
    var all := Parse(c.inbuf + Flatten(run.pieces));
    run.end.WouldBlock? && !all.bad && Acceptable(env, c.pending, c.sequence, all.bodies)
  }

  /** How many of the bodies that a read completes are left to the pool. */
  function NewlyPooled(c: Io, run: RecvRun, env: Env): nat
  {
    Pooled(env, Parse(c.inbuf + Flatten(run.pieces)).bodies)
  }

  /** A read goes on exactly if the socket would block, no header is bad and no body refused; it has then taken every
      complete body received so far.  An incomplete frame is waited for. */
  lemma ReadsExactly(c: Io, run: RecvRun, env: Env, now: nat)
    requires OnTheWay(c.received, c.taken, c.inbuf)
    ensures var (d, v) := ReadData(c, run, env, now); var all := Parse(c.inbuf + Flatten(run.pieces));
            && d.received == c.received + Flatten(run.pieces)
            && (v.Served? || v.NoData? <==> ReadsOn(c, run, env))
            && (v.PeerGone? <==> run.end.PeerClosed?)
            && (v.Served? || v.NoData? ==>
                  && d.taken == Parse(d.received).bodies == c.taken + all.bodies
                  && d.pending == c.pending + Size(env, all.bodies)
                  && d.sequence == c.sequence + Pooled(env, all.bodies))
  {
    var d := Receive(c, Flatten(run.pieces));
    TakesExactly(d, env, now);
    MoreOnTheWay(c.received, c.taken, c.inbuf, Flatten(run.pieces));
    assert d.inbuf == [] ==> Parse(d.inbuf) == Parsed([], [], false);
    assert c.taken + [] == c.taken;
  }

  /** So a read reports failure, and a connection is marked to close by it, exactly for these reasons. */
  lemma OnReadableExactly(c: Conn, env: Env, now: nat)
    requires OnTheWay(c.io.received, c.io.taken, c.io.inbuf) && !c.shouldClose
    ensures var (d, ok) := OnReadable(c, env, now); var run := env.recv(c.recvs);
            && (ok <==> run.end.PeerClosed? || ReadsOn(c.io, run, env))
            && (d.shouldClose <==> !ReadsOn(c.io, run, env))
            && d.io.received == c.io.received + Flatten(run.pieces) && d.recvs == c.recvs + 1
            && (!d.shouldClose ==>
                  && d.io.taken == Parse(d.io.received).bodies
                  && d.io.sequence == c.io.sequence + NewlyPooled(c.io, run, env))
  {
    ReadsExactly(c.io, env.recv(c.recvs), env, now);
  }

  // ---------------------------------------------------------------------------------------
  // One flush
  // ---------------------------------------------------------------------------------------

  /** The send loop goes on after this outcome. */
  predicate GoesOn(o: SendOutcome) { o.SendInterrupted? || (o.Sent? && o.n > 0) }

  function Left(k: Chunk): nat
    requires k.offset <= |k.data|
  {
    |k.data| - k.offset
  }

  /** The kernel never takes more than it is offered. */
  predicate Honest(chunks: seq<Chunk>, results: seq<SendOutcome>)
    requires ChunksOk(chunks)
    decreases |results|
  {
    |chunks| > 0 && |results| > 0 ==>
      match results[0]
      case Sent(n) =>
        && n <= Left(chunks[0])
        && (n == Left(chunks[0]) ==> Honest(chunks[1..], results[1..]))
        && (0 < n < Left(chunks[0]) ==>
              Honest(chunks[0 := Chunk(chunks[0].data, chunks[0].offset + n)], results[1..]))
      case _ => Honest(chunks, results[1..])
  }

  /** How many bytes the kernel took. */
  function Total(results: seq<SendOutcome>): nat
  {
    if |results| == 0 then 0 else (if results[0].Sent? then results[0].n else 0) + Total(results[1..])
  }

  /** The loop has used up the first k outcomes. */
  predicate FlushedBy(c: Io, d: Io, ok: bool, results: seq<SendOutcome>, k: nat)
    requires ChunksOk(c.chunks)
  {
    && k <= |results| && (forall j :: 0 <= j < k ==> GoesOn(results[j]))
    && (d.chunks != [] && k < |results| ==> !GoesOn(results[k]))
    && (ok <==> d.chunks == [] || k == |results| || results[k].SendWouldBlock?)
    && (Honest(c.chunks, results) ==> |d.sent| == |c.sent| + Total(results[..k]))
  }

  /** The send loop goes on until the queue is empty, nothing more is known of the kernel, or the kernel stops it; it
      fails exactly if that was an error or a write of nothing; and what it records as sent is what the kernel took. */
  lemma {:induction false} FlushExactly(c: Io, results: seq<SendOutcome>) returns (k: nat)
    requires ChunksOk(c.chunks)
    ensures FlushedBy(c, Flush(c, results).0, Flush(c, results).1, results, k)
    decreases |results|
  {
    k := 0;
    if |c.chunks| > 0 && |results| > 0 && GoesOn(results[0]) {
      var rest := results[1..];
      var c1 := if results[0].Sent? then SendSome(c, results[0].n) else c;
      var m := FlushExactly(c1, rest);
      k := m + 1;
      assert results[..k] == [results[0]] + rest[..m];
      assert ([results[0]] + rest[..m])[1..] == rest[..m];
      OneSent(c, results);
    }
  }

  lemma OneSent(c: Io, results: seq<SendOutcome>)
    requires ChunksOk(c.chunks) && |c.chunks| > 0 && |results| > 0 && GoesOn(results[0])
    ensures var c1 := if results[0].Sent? then SendSome(c, results[0].n) else c;
            Honest(c.chunks, results) ==>
              && Honest(c1.chunks, results[1..])
              && |c1.sent| == |c.sent| + (if results[0].Sent? then results[0].n else 0)
  {
  }

  // ---------------------------------------------------------------------------------------
  // What ends a connection
  // ---------------------------------------------------------------------------------------

  /** The data side when the coroutine is about to flush. */
  function Flushing(c: Io): Io { c.(writeDeadline := None) }

  /** A readable notification ends the connection. */
  predicate ReadEnds(c: Conn, env: Env, now: nat)
    requires ChunksOk(c.io.chunks)
  {
    var run := env.recv(c.recvs);
    var io := ReadData(c.io, run, env, now).0;
    && c.readWaiter
    && (|| !ReadsOn(c.io, run, env)
        || (io.chunks != [] && c.writeReady && !Flush(Flushing(io), env.send(c.flushes)).1))
  }

  /** A writable notification ends the connection. */
  predicate WriteEnds(c: Conn, env: Env)
    requires ChunksOk(c.io.chunks)
  {
    var (io, ok) := Flush(Flushing(c.io), env.send(c.flushes));
    c.writeWaiter && (!ok || (io.chunks == [] && c.readReady && !ReadsOn(io, env.recv(c.recvs), env)))
  }

  /** An open connection is ended by a notification exactly for these reasons, and one that is closing stays so. */
  lemma NotificationsEndExactly(c: Conn, env: Env, now: nat)
    requires Good(c, env)
    ensures NotifyReadable(c, env, now).shouldClose <==> c.shouldClose || ReadEnds(c, env, now)
    ensures NotifyWritable(c, env, now).shouldClose <==> c.shouldClose || WriteEnds(c, env)
  {
    if c.shouldClose {
      CallOk(c, env, Readable(now));
      CallOk(c, env, Writable(now));
    } else {
      ReadableEndsExactly(c, env, now);
      WritableEndsExactly(c, env, now);
    }
  }

  /** The readable notification of a connection that waits to read ends it exactly if the read does not go on, or its
      answers are flushed at once, because the socket was writable already, and the flush fails. */
  lemma ReadableEndsExactly(c: Conn, env: Env, now: nat)
    requires Good(c, env) && !c.shouldClose
    ensures var d := NotifyReadable(c, env, now); var run := env.recv(c.recvs);
            var io := ReadData(c.io, run, env, now).0;
            if c.readWaiter then
              && ChunksOk(io.chunks) && d.recvs == c.recvs + 1
              && d.io.received == c.io.received + Flatten(run.pieces)
              && (d.shouldClose <==>
                    || !ReadsOn(c.io, run, env)
                    || (io.chunks != [] && c.writeReady && !Flush(Flushing(io), env.send(c.flushes)).1))
              && (!d.shouldClose ==>
                    && d.io.taken == Parse(d.io.received).bodies
                    && d.io.sequence == c.io.sequence + NewlyPooled(c.io, run, env))
            else d == c.(readReady := true, state := Reading)
  {
    if c.readWaiter {
      var e := c.(state := Reading, readWaiter := false, readReady := false, readDeadline := None);
      OnReadableExactly(e, env, now);
      OnReadableOk(e, env, now);
      var (x, ok) := OnReadable(e, env, now);
      if ok && !x.shouldClose { WritingEnds(x, env, now); }
    }
  }

  /** From the write loop, with no read pending. */
  lemma WritingEnds(c: Conn, env: Env, now: nat)
    requires Running(c) && !c.shouldClose && DataOk(c.io, env, true) && Timed(c.io) && !c.readReady
    ensures var d := WriteLoop(c, env, now);
            && d.recvs == c.recvs && d.io.received == c.io.received && d.io.taken == c.io.taken
            && d.io.sequence == c.io.sequence
            && (d.shouldClose <==> c.io.chunks != [] && c.writeReady && !Flush(Flushing(c.io), env.send(c.flushes)).1)
  {
    if c.io.chunks != [] && c.writeReady {
      var e := c.(writeReady := false, io := Flushing(c.io));
      FlushOk(e.io, env, env.send(e.flushes));
      OnWritableOk(e, env, now);
      assert WriteLoop(c, env, now) == AfterWrite(e, env, now);
      FlushThenWait(e, env, now);
    } else {
      Waits(c, env, now);
    }
  }

  /** With no readiness left the coroutine comes to wait. */
  lemma Waits(c: Conn, env: Env, now: nat)
    requires ChunksOk(c.io.chunks) && !c.shouldClose && !c.readReady && (c.io.chunks != [] ==> !c.writeReady)
    ensures var d := WriteLoop(c, env, now);
            && !d.shouldClose && d.recvs == c.recvs && d.flushes == c.flushes
            && d.io.received == c.io.received && d.io.taken == c.io.taken && d.io.sequence == c.io.sequence
  {
    if c.io.chunks == [] { assert WriteLoop(c, env, now) == FromTop(c, env, now); }
  }

  lemma FlushThenWait(c: Conn, env: Env, now: nat)
    requires ChunksOk(c.io.chunks) && !c.shouldClose && !c.readReady && !c.writeReady
    requires var io := Flush(c.io, env.send(c.flushes)).0; io.received == c.io.received && io.taken == c.io.taken
    ensures var d := AfterWrite(c, env, now);
            && (d.shouldClose <==> !Flush(c.io, env.send(c.flushes)).1) && d.recvs == c.recvs
            && d.flushes == c.flushes + 1 && d.io.received == c.io.received && d.io.taken == c.io.taken
            && d.io.sequence == c.io.sequence
  {
    FlushKeepsBook(c.io, env.send(c.flushes));
    var (x, ok) := OnWritable(c, env, now);
    if ok {
      assert AfterWrite(c, env, now) == WriteLoop(x, env, now);
      Waits(x, env, now);
    }
  }

  lemma ReadThenWait(c: Conn, env: Env, now: nat)
    requires ChunksOk(c.io.chunks) && !c.shouldClose && !c.readReady && !c.writeReady
    requires OnTheWay(c.io.received, c.io.taken, c.io.inbuf)
    ensures var d := AfterRead(c, env, now);
            && (d.shouldClose <==> !ReadsOn(c.io, env.recv(c.recvs), env)) && d.flushes == c.flushes
            && d.recvs == c.recvs + 1 && d.io.received == c.io.received + Flatten(env.recv(c.recvs).pieces)
            && (!d.shouldClose ==> d.io.sequence == c.io.sequence + NewlyPooled(c.io, env.recv(c.recvs), env))
  {
    OnReadableExactly(c, env, now);
    var (x, ok) := OnReadable(c, env, now);
    if ok && !x.shouldClose {
      assert AfterRead(c, env, now) == WriteLoop(x, env, now);
      Waits(x, env, now);
    }
  }

  /** The writable notification of a connection that waits to write ends it exactly if the flush fails, or leaves
      nothing and a read that was waiting does not go on. */
  lemma WritableEndsExactly(c: Conn, env: Env, now: nat)
    requires Good(c, env) && !c.shouldClose
    ensures var d := NotifyWritable(c, env, now);
            if c.writeWaiter then
              var (io, ok) := Flush(Flushing(c.io), env.send(c.flushes));
              && d.flushes == c.flushes + 1
              && (d.shouldClose <==> !ok || (io.chunks == [] && c.readReady && !ReadsOn(io, env.recv(c.recvs), env)))
              && d.recvs == c.recvs + (if ok && io.chunks == [] && c.readReady then 1 else 0)
              && d.io.received
              == c.io.received + (if d.recvs == c.recvs then [] else Flatten(env.recv(c.recvs).pieces))
              && (!d.shouldClose ==> d.io.sequence == c.io.sequence + (if d.recvs == c.recvs then 0
                                                                       else NewlyPooled(io, env.recv(c.recvs), env)))
            else d == c.(writeReady := true, state := Writing)
  {
    if c.writeWaiter {
      var e := c.(state := Writing, writeWaiter := false, writeReady := false, io := Flushing(c.io));
      FlushOk(e.io, env, env.send(e.flushes));
      if c.readReady { FlushThenRead(e, env, now); } else { FlushThenWait(e, env, now); }
    }
  }

  lemma FlushThenRead(c: Conn, env: Env, now: nat)
    requires Running(c) && !c.shouldClose && DataOk(c.io, env, true) && c.io.writeDeadline.None?
    requires c.readReady && !c.writeReady
    ensures var d := AfterWrite(c, env, now); var (io, ok) := Flush(c.io, env.send(c.flushes));
            && d.flushes == c.flushes + 1
            && (d.shouldClose <==> !ok || (io.chunks == [] && !ReadsOn(io, env.recv(c.recvs), env)))
            && d.recvs == c.recvs + (if ok && io.chunks == [] then 1 else 0)
            && d.io.received == c.io.received + (if d.recvs == c.recvs then [] else Flatten(env.recv(c.recvs).pieces))
            && (!d.shouldClose ==> d.io.sequence == c.io.sequence + (if d.recvs == c.recvs then 0
                                                                     else NewlyPooled(io, env.recv(c.recvs), env)))
  {
    FlushKeepsBook(c.io, env.send(c.flushes));
    assert c.io.received + [] == c.io.received;
    FlushOk(c.io, env, env.send(c.flushes));
    OnWritableOk(c, env, now);
    var (x, ok) := OnWritable(c, env, now);
    if ok {
      assert AfterWrite(c, env, now) == WriteLoop(x, env, now);
      if x.io.chunks == [] {
        assert WriteLoop(x, env, now) == FromTop(x, env, now);
        ReadingEnds(x, env, now);
        assert x.io == Flush(c.io, env.send(c.flushes)).0;
      } else {
        StillWriting(x, env, now);
      }
    }
  }

  lemma StillWriting(c: Conn, env: Env, now: nat)
    requires ChunksOk(c.io.chunks) && c.io.chunks != [] && !c.writeReady
    ensures var d := WriteLoop(c, env, now);
            && d.shouldClose == c.shouldClose && d.recvs == c.recvs && d.flushes == c.flushes
            && d.io.received == c.io.received && d.io.sequence == c.io.sequence
  {
  }

  /** From the top of the loop, with a read pending and the socket not known to be writable. */
  lemma ReadingEnds(c: Conn, env: Env, now: nat)
    requires Running(c) && !c.shouldClose && DataOk(c.io, env, true) && Timed(c.io) && c.io.chunks == []
    requires c.readReady && !c.writeReady
    ensures var d := FromTop(c, env, now);
            && d.flushes == c.flushes && (d.shouldClose <==> !ReadsOn(c.io, env.recv(c.recvs), env))
            && d.recvs == c.recvs + 1 && d.io.received == c.io.received + Flatten(env.recv(c.recvs).pieces)
            && (!d.shouldClose ==> d.io.sequence == c.io.sequence + NewlyPooled(c.io, env.recv(c.recvs), env))
  {
    var e := c.(readReady := false, readDeadline := None);
    assert FromTop(c, env, now) == AfterRead(e, env, now);
    ReadThenWait(e, env, now);
  }
}
