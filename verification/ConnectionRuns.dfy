/** Whole runs of a server connection: the deadlines it waits with, and a stream of acceptable requests served in any
    pieces. */
module ConnectionRuns {
  import opened Common
  import opened Framing
  import opened Rpc
  import opened Connection
  import opened ConnectionProofs
  import opened ConnectionAnswers
  import opened ConnectionReads

  // ---------------------------------------------------------------------------------------
  // Deadlines
  // ---------------------------------------------------------------------------------------

  /** A connection that has come to wait at time `now` waits from then on. */
  predicate Fresh(c: Conn, env: Env, now: nat)
  {
    && (!c.shouldClose && c.pc == AtRead ==> c.readDeadline == Some(now + env.readTimeout))
    && (!c.shouldClose && c.pc == AtWrite ==> c.io.writeDeadline == Some(now + env.writeTimeout))
    && (c.pc == Finished ==> c.shouldClose)
  }

  lemma {:induction false} FromTopFresh(c: Conn, env: Env, now: nat)
    requires ChunksOk(c.io.chunks)
    ensures Fresh(FromTop(c, env, now), env, now)
    decreases Flags(c), 0
  {
    if !c.shouldClose && c.readReady { AfterReadFresh(c.(readReady := false, readDeadline := None), env, now); }
  }

  lemma {:induction false} AfterReadFresh(c: Conn, env: Env, now: nat)
    requires ChunksOk(c.io.chunks)
    ensures Fresh(AfterRead(c, env, now), env, now)
    decreases Flags(c), 2
  {
    if !c.shouldClose {
      var (d, ok) := OnReadable(c, env, now);
      ReadFlags(c, env, now);
      if ok && !d.shouldClose { WriteLoopFresh(d, env, now); }
    }
  }

  lemma ReadFlags(c: Conn, env: Env, now: nat)
    requires ChunksOk(c.io.chunks)
    ensures var (d, ok) := OnReadable(c, env, now); Flags(d) == Flags(c) && (!ok ==> d.shouldClose)
  {
  }

  lemma {:induction false} WriteLoopFresh(c: Conn, env: Env, now: nat)
    requires ChunksOk(c.io.chunks) && !c.shouldClose
    ensures Fresh(WriteLoop(c, env, now), env, now)
    decreases Flags(c), 1
  {
    if c.io.chunks == [] { FromTopFresh(c, env, now); }
    else if c.writeReady { AfterWriteFresh(c.(writeReady := false, io := c.io.(writeDeadline := None)), env, now); }
  }

  lemma {:induction false} AfterWriteFresh(c: Conn, env: Env, now: nat)
    requires ChunksOk(c.io.chunks)
    ensures Fresh(AfterWrite(c, env, now), env, now)
    decreases Flags(c), 2
  {
    if !c.shouldClose {
      var (d, ok) := OnWritable(c, env, now);
      WriteFlags(c, env, now);
      if ok && !d.shouldClose { WriteLoopFresh(d, env, now); }
    }
  }

  lemma WriteFlags(c: Conn, env: Env, now: nat)
    requires ChunksOk(c.io.chunks)
    ensures var (d, ok) := OnWritable(c, env, now); Flags(d) == Flags(c) && (!ok ==> d.shouldClose)
  {
  }

  /** The call resumes the coroutine. */
  predicate Resumes(c: Conn, env: Env, call: Call)
  {
    match call
    case Readable(_) => c.readWaiter
    case Writable(_) => c.writeWaiter
    case PoolResult(now, r) => c.readWaiter && Enqueue(c.io, env, now, r).1
    case _ => false
  }

  /** The deadlines after a call at time `now` that resumed the coroutine or did not, and queued a response or did
      not. */
  predicate Rearmed(c: Conn, d: Conn, env: Env, now: nat, resumed: bool, queued: bool)
  {
    && (resumed ==>
          && (WaitingToRead(d) ==> d.readDeadline == Some(now + env.readTimeout))
          && (WaitingToWrite(d) ==> d.io.writeDeadline == Some(now + env.writeTimeout)))
    && (!resumed && !d.shouldClose ==>
          && d.readDeadline == c.readDeadline
          && d.io.writeDeadline == (if queued then Some(now + env.writeTimeout) else c.io.writeDeadline))
  }

  lemma ReadableDeadlines(c: Conn, env: Env, now: nat)
    requires Good(c, env)
    ensures Rearmed(c, NotifyReadable(c, env, now), env, now, c.readWaiter, false)
  {
    if c.readWaiter {
      AfterReadFresh(c.(state := Reading, readWaiter := false, readReady := false, readDeadline := None), env, now);
    }
  }

  lemma WritableDeadlines(c: Conn, env: Env, now: nat)
    requires Good(c, env)
    ensures Rearmed(c, NotifyWritable(c, env, now), env, now, c.writeWaiter, false)
  {
    if c.writeWaiter {
      AfterWriteFresh(c.(state := Writing, writeWaiter := false, writeReady := false,
                         io := c.io.(writeDeadline := None)), env, now);
    }
  }

  lemma ResultDeadlines(c: Conn, env: Env, now: nat, r: Response)
    requires Good(c, env)
    ensures var ok := Enqueue(c.io, env, now, r).1;
            Rearmed(c, Deliver(c, env, now, r).0, env, now, c.readWaiter && ok, ok)
  {
    var (io, ok) := Enqueue(c.io, env, now, r);
    if ok && c.readWaiter {
      AfterReadFresh(c.(io := Handed(io, env.responses.serialise(r)), state := Reading, readWaiter := false,
                        readReady := false, readDeadline := None), env, now);
    }
  }

  /** How long a connection may wait: one that is resumed and waits again waits a whole read timeout or write timeout
      from then, as a new connection does; one that is not resumed keeps its deadlines, except that a pool result queued
      on a connection that waits to write gives it a whole write timeout from then. */
  lemma DeadlinesRestart(c: Conn, env: Env, call: Call)
    requires Good(c, env) && !c.shouldClose
    ensures Rearmed(c, CallStep(c, env, call), env, call.now, Resumes(c, env, call),
                    call.PoolResult? && Enqueue(c.io, env, call.now, call.r).1)
  {
    match call
    case Readable(now) => ReadableDeadlines(c, env, now);
    case Writable(now) => WritableDeadlines(c, env, now);
    case PoolResult(now, r) => ResultDeadlines(c, env, now, r);
    case Close(now) => MarkClosingOk(c, env, now);
    case Timer(now) => TickOk(c, env, now);
  }

  lemma StartDeadline(env: Env, start: nat)
    ensures Start(env, start).readDeadline == Some(start + env.readTimeout)
  {
  }

  // ---------------------------------------------------------------------------------------
  // Sizes
  // ---------------------------------------------------------------------------------------

  lemma {:induction false} SizeAppend(env: Env, a: seq<seq<byte>>, b: seq<seq<byte>>)
    ensures Size(env, a + b) == Size(env, a) + Size(env, b) && Pooled(env, a + b) == Pooled(env, a) + Pooled(env, b)
    decreases |a|
  {
    if |a| == 0 {
      assert a + b == b;
    } else {
      assert (a + b)[1..] == a[1..] + b;
      SizeAppend(env, a[1..], b);
    }
  }

  lemma SizeOne(env: Env, body: seq<byte>)
    ensures Size(env, [body]) == if ForPool(env, body) then 0 else 4 + AnswerSize(env, body)
  {
    assert [body][1..] == [];
  }

  /** The frames of the connection's own answers take so many bytes. */
  lemma {:induction false} AnswersSize(env: Env, taken: seq<seq<byte>>)
    requires Sendable(Immediate(env, taken))
    ensures |Frames(Immediate(env, taken))| == Size(env, taken)
  {
    if |taken| > 0 {
      var before, body := taken[..|taken| - 1], taken[|taken| - 1];
      assert taken == before + [body];
      SizeAppend(env, before, [body]);
      SizeOne(env, body);
      if !ForPool(env, body) {
        var x := env.responses.serialise(Answer(env, body));
        SendableBefore(Immediate(env, before), x);
        AnswersSize(env, before);
        FramesSnoc(Immediate(env, before), x);
      } else {
        AnswersSize(env, before);
      }
    }
  }

  lemma SendableBefore(bodies: seq<seq<byte>>, x: seq<byte>)
    requires Sendable(bodies + [x])
    ensures Sendable(bodies) && ValidLength(|x|)
  {
    assert (bodies + [x])[|bodies|] == x;
    forall i | 0 <= i < |bodies| ensures ValidLength(|bodies[i]|) { assert (bodies + [x])[i] == bodies[i]; }
  }

  /** What is unsent is at most what the connection has answered. */
  lemma UnsentAtMost(c: Io, env: Env)
    requires WriteOk(c, env) && Answers(BookOf(c), env) && c.handed == []
    ensures c.pending <= Size(env, c.taken)
  {
    assert c.queued == Immediate(env, c.taken);
    AnswersSize(env, c.taken);
  }

  lemma {:induction false} AcceptableAppend(env: Env, unsent: nat, sequence: nat, a: seq<seq<byte>>, b: seq<seq<byte>>)
    requires Acceptable(env, unsent, sequence, a + b)
    ensures Acceptable(env, unsent + Size(env, a), sequence + Pooled(env, a), b)
    decreases |a|
  {
    if |a| == 0 {
      assert a + b == b;
    } else {
      assert (a + b)[0] == a[0] && (a + b)[1..] == a[1..] + b;
      if ForPool(env, a[0]) {
        AcceptableAppend(env, unsent, sequence + 1, a[1..], b);
      } else {
        AcceptableAppend(env, unsent + 4 + AnswerSize(env, a[0]), sequence, a[1..], b);
      }
    }
  }

  lemma {:induction false} AcceptableLess(env: Env, more: nat, less: nat, sequence: nat, bodies: seq<seq<byte>>)
    requires less <= more && Acceptable(env, more, sequence, bodies)
    ensures Acceptable(env, less, sequence, bodies)
    decreases |bodies|
  {
    if |bodies| > 0 {
      if ForPool(env, bodies[0]) {
        AcceptableLess(env, more, less, sequence + 1, bodies[1..]);
      } else {
        var n := AnswerSize(env, bodies[0]);
        AcceptableLess(env, more + 4 + n, less + 4 + n, sequence, bodies[1..]);
      }
    }
  }

  // ---------------------------------------------------------------------------------------
  // A stream of acceptable requests
  // ---------------------------------------------------------------------------------------

  /** What the first n reads receive. */
  function Stream(env: Env, n: nat): seq<byte>
  {
    if n == 0 then [] else Stream(env, n - 1) + Flatten(env.recv(n - 1).pieces)
  }

  /** The peer neither closes nor fails, the kernel never fails a write, no header is bad, and all requests together can
      be accepted. */
  ghost predicate Smooth(env: Env)
  {
    && (forall k: nat :: env.recv(k).end.WouldBlock?)
    && (forall k: nat, j: nat :: j < |env.send(k)| ==> GoesOn(env.send(k)[j]) || env.send(k)[j].SendWouldBlock?)
    && (forall n: nat :: !Parse(Stream(env, n)).bad && Acceptable(env, 0, 0, Parse(Stream(env, n)).bodies))
  }

  /** The connection is open, and has answered or dispatched every complete request received so far. */
  ghost predicate KeepsUp(c: Conn, env: Env)
  {
    && Good(c, env) && Answers(BookOf(c.io), env) && !c.shouldClose && c.io.handed == []
    && c.io.received == Stream(env, c.recvs) && c.io.sequence == Pooled(env, c.io.taken)
  }

  lemma FlushGoesOn(c: Io, env: Env, k: nat)
    requires ChunksOk(c.chunks) && Smooth(env)
    ensures Flush(c, env.send(k)).1
  {
    var j := FlushExactly(c, env.send(k));
  }

  /** Requests that can be accepted behind others can be accepted when some of the others' answers have been sent. */
  lemma NextAccepted(env: Env, unsent: nat, taken: seq<seq<byte>>, next: seq<seq<byte>>)
    requires Acceptable(env, 0, 0, taken + next) && unsent <= Size(env, taken)
    ensures Acceptable(env, unsent, Pooled(env, taken), next)
  {
    AcceptableAppend(env, 0, 0, taken, next);
    AcceptableLess(env, Size(env, taken), unsent, Pooled(env, taken), next);
  }

  /** What a smooth stream holds behind the bodies taken so far. */
  lemma NextBodies(env: Env, recvs: nat, taken: seq<seq<byte>>, unread: seq<byte>)
    requires Smooth(env) && OnTheWay(Stream(env, recvs), taken, unread)
    ensures var all := Parse(unread + Flatten(env.recv(recvs).pieces));
            && !all.bad && Parse(Stream(env, recvs + 1)).bodies == taken + all.bodies
            && Acceptable(env, 0, 0, taken + all.bodies)
  {
    var more := Flatten(env.recv(recvs).pieces);
    assert Stream(env, recvs + 1) == Stream(env, recvs) + more;
    MoreOnTheWay(Stream(env, recvs), taken, unread, more);
  }

  /** Whatever is unsent, the next read goes on. */
  lemma NextReadGoesOn(c: Io, env: Env, recvs: nat)
    requires Smooth(env) && DataOk(c, env, true) && Answers(BookOf(c), env) && c.handed == []
    requires c.received == Stream(env, recvs) && c.sequence == Pooled(env, c.taken)
    ensures ReadsOn(c, env.recv(recvs), env)
    ensures Parse(Stream(env, recvs + 1)).bodies == c.taken + Parse(c.inbuf + Flatten(env.recv(recvs).pieces)).bodies
    ensures c.taken == Parse(c.received).bodies
  {
    Arrived(c.received, c.taken, c.inbuf);
    UnsentAtMost(c, env);
    NextBodies(env, recvs, c.taken, c.inbuf);
    NextAccepted(env, c.pending, c.taken, Parse(c.inbuf + Flatten(env.recv(recvs).pieces)).bodies);
  }

  lemma ReadableKeepsUp(c: Conn, env: Env, now: nat)
    requires Smooth(env) && KeepsUp(c, env)
    ensures KeepsUp(NotifyReadable(c, env, now), env)
  {
    var d := NotifyReadable(c, env, now);
    NotifyReadableOk(c, env, now);
    NotifyReadableAnswers(c, env, now);
    ReadableEndsExactly(c, env, now);
    if c.readWaiter {
      NextReadGoesOn(c.io, env, c.recvs);
      var io := ReadData(c.io, env.recv(c.recvs), env, now).0;
      FlushGoesOn(Flushing(io), env, c.flushes);
      SizeAppend(env, c.io.taken, Parse(c.io.inbuf + Flatten(env.recv(c.recvs).pieces)).bodies);
    }
  }

  lemma WritableKeepsUp(c: Conn, env: Env, now: nat)
    requires Smooth(env) && KeepsUp(c, env)
    ensures KeepsUp(NotifyWritable(c, env, now), env)
  {
    var d := NotifyWritable(c, env, now);
    NotifyWritableOk(c, env, now);
    NotifyWritableAnswers(c, env, now);
    WritableEndsExactly(c, env, now);
    if c.writeWaiter {
      var (io, ok) := Flush(Flushing(c.io), env.send(c.flushes));
      FlushGoesOn(Flushing(c.io), env, c.flushes);
      FlushOk(Flushing(c.io), env, env.send(c.flushes));
      FlushKeepsBook(Flushing(c.io), env.send(c.flushes));
      NextReadGoesOn(io, env, c.recvs);
      SizeAppend(env, c.io.taken, Parse(io.inbuf + Flatten(env.recv(c.recvs).pieces)).bodies);
      TakenIs(c, d, env);
    }
  }

  /** An open connection has taken exactly the bodies of what it received. */
  lemma TakenIs(c: Conn, d: Conn, env: Env)
    requires Good(c, env) && !c.shouldClose && Good(d, env)
    ensures c.io.taken == Parse(c.io.received).bodies && (!d.shouldClose ==> d.io.taken == Parse(d.io.received).bodies)
  {
    Arrived(c.io.received, c.io.taken, c.io.inbuf);
    if !d.shouldClose { Arrived(d.io.received, d.io.taken, d.io.inbuf); }
  }

  lemma StartKeepsUp(env: Env, start: nat)
    ensures KeepsUp(Start(env, start), env)
  {
    StartOk(env, start);
    assert Start(env, start).io == EmptyIo;
  }

  lemma {:induction false} RunKeepsUp(c: Conn, env: Env, calls: seq<Call>)
    requires Smooth(env) && KeepsUp(c, env) && forall i :: 0 <= i < |calls| ==> calls[i].Readable? || calls[i].Writable?
    ensures KeepsUp(CallRun(c, env, calls), env)
    decreases |calls|
  {
    if |calls| > 0 {
      if calls[0].Readable? { ReadableKeepsUp(c, env, calls[0].now); } else { WritableKeepsUp(c, env, calls[0].now); }
      RunKeepsUp(CallStep(c, env, calls[0]), env, calls[1..]);
    }
  }

  /** However a stream of acceptable requests is cut into pieces and whenever the socket takes the answers, the
      connection stays open and has taken exactly the requests of what has arrived: so two cuttings of the same bytes
      are served alike. */
  lemma ServedInAnyPieces(env: Env, start: nat, calls: seq<Call>)
    requires Smooth(env) && forall i :: 0 <= i < |calls| ==> calls[i].Readable? || calls[i].Writable?
    ensures var c := CallRun(Start(env, start), env, calls);
            && !c.shouldClose && c.pc != Finished
            && c.io.received == Stream(env, c.recvs) && c.io.taken == Parse(Stream(env, c.recvs)).bodies
            && c.io.queued == Immediate(env, c.io.taken) && Requests(c.io.dispatched) == Forwarded(env, c.io.taken)
  {
    StartKeepsUp(env, start);
    RunKeepsUp(Start(env, start), env, calls);
    var c := CallRun(Start(env, start), env, calls);
    TakenIs(c, c, env);
  }

  /** And each readable notification of a connection that waits to read takes in one more read. */
  lemma ReadableReads(c: Conn, env: Env, now: nat)
    requires Good(c, env) && WaitingToRead(c)
    ensures var d := NotifyReadable(c, env, now);
            d.recvs == c.recvs + 1 && d.io.received == c.io.received + Flatten(env.recv(c.recvs).pieces)
  {
    ReadableEndsExactly(c, env, now);
  }
}
