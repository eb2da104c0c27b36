/** What a connection queues and dispatches is an answer to, or the content of, a request frame it received. */
module ConnectionAnswers {
  import opened Common
  import opened Framing
  import opened Rpc
  import opened Connection
  import opened ConnectionProofs

  /** The response owed to a request body, whoever computes it. */
  function Answer(env: Env, body: seq<byte>): Response
  {
    match env.requests.parse(body)
    case None => ParseErrorReply
    case Some(q) => if q.service == HEARTBEAT_SERVICE then HeartbeatReply(q) else Serve(env.registry, q)
  }

  /** Whether a request body is left to the thread pool. */
  predicate ForPool(env: Env, body: seq<byte>)
  {
    var q := env.requests.parse(body);
    q.Some? && q.value.service != HEARTBEAT_SERVICE && env.pooled
  }

  /** The responses a connection queues itself for the bodies it takes, in order. */
  function Immediate(env: Env, taken: seq<seq<byte>>): seq<seq<byte>>
  {
    if |taken| == 0 then []
    else
      var body := taken[|taken| - 1];
      var before := Immediate(env, taken[..|taken| - 1]);
      if ForPool(env, body) then before else before + [env.responses.serialise(Answer(env, body))]
  }

  /** The requests it leaves to the pool, in order. */
  function Forwarded(env: Env, taken: seq<seq<byte>>): seq<Request>
  {
    if |taken| == 0 then []
    else
      var body := taken[|taken| - 1];
      var before := Forwarded(env, taken[..|taken| - 1]);
      if ForPool(env, body) then before + [env.requests.parse(body).value] else before
  }

  function Requests(ds: seq<Dispatch>): seq<Request>
  {
    if |ds| == 0 then [] else Requests(ds[..|ds| - 1]) + [ds[|ds| - 1].request]
  }

  /** The part of a connection that says what it has taken in, forwarded and queued. */
  datatype Book = Book(
    taken: seq<seq<byte>>, dispatched: seq<Dispatch>, sequence: nat, queued: seq<seq<byte>>, handed: seq<seq<byte>>)

  function BookOf(c: Io): Book { Book(c.taken, c.dispatched, c.sequence, c.queued, c.handed) }

  /** The sequence numbers given out are increasing. */
  predicate Numbered(ds: seq<Dispatch>, last: int)
  {
    |ds| == 0 || (ds[|ds| - 1].sequence <= last && Numbered(ds[..|ds| - 1], ds[|ds| - 1].sequence - 1))
  }

  lemma {:induction false} NumberedBelow(ds: seq<Dispatch>, last: int, i: nat)
    requires Numbered(ds, last) && i < |ds|
    ensures ds[i].sequence <= last
  {
    if i < |ds| - 1 { NumberedBelow(ds[..|ds| - 1], ds[|ds| - 1].sequence - 1, i); }
  }

  /** `all` consists of `own` and `other`; with no `other` it is `own` in order. */
  predicate Merged(all: seq<seq<byte>>, own: seq<seq<byte>>, other: seq<seq<byte>>)
  {
    && multiset(all) == multiset(own) + multiset(other)
    && (other == [] ==> all == own)
  }

  /** Every body taken was answered once or forwarded once, in order, and nothing else was queued but pool results. */
  predicate Answers(b: Book, env: Env)
  {
    && Merged(b.queued, Immediate(env, b.taken), b.handed)
    && Requests(b.dispatched) == Forwarded(env, b.taken)
    && Numbered(b.dispatched, b.sequence)
  }

  /** From `a` the connection has only gone on answering by itself. */
  predicate Continues(a: Book, b: Book, env: Env)
  {
    Answers(b, env) && a.dispatched <= b.dispatched && a.taken <= b.taken && b.handed == a.handed
  }

  /** The three things that can happen to the book when a body is looked at. */
  function Answered(b: Book, env: Env, body: seq<byte>): Book
  {
    b.(taken := b.taken + [body], queued := b.queued + [env.responses.serialise(Answer(env, body))])
  }

  function PassedOn(b: Book, body: seq<byte>, q: Request): Book
  {
    b.(taken := b.taken + [body], sequence := b.sequence + 1,
        dispatched := b.dispatched + [Dispatch(b.sequence + 1, q)])
  }

  function Refused(b: Book, n: nat): Book { b.(sequence := b.sequence + n) }

  lemma OneMoreAnswered(env: Env, taken: seq<seq<byte>>, body: seq<byte>)
    requires !ForPool(env, body)
    ensures Immediate(env, taken + [body]) == Immediate(env, taken) + [env.responses.serialise(Answer(env, body))]
    ensures Forwarded(env, taken + [body]) == Forwarded(env, taken)
  {
    assert (taken + [body])[..|taken|] == taken;
  }

  lemma OneMorePassedOn(env: Env, taken: seq<seq<byte>>, body: seq<byte>)
    requires ForPool(env, body)
    ensures Immediate(env, taken + [body]) == Immediate(env, taken)
    ensures Forwarded(env, taken + [body]) == Forwarded(env, taken) + [env.requests.parse(body).value]
  {
    assert (taken + [body])[..|taken|] == taken;
  }

  lemma OneMoreRequest(ds: seq<Dispatch>, d: Dispatch)
    ensures Requests(ds + [d]) == Requests(ds) + [d.request]
  {
    assert (ds + [d])[..|ds|] == ds;
  }

  lemma AnsweredOk(b: Book, env: Env, body: seq<byte>)
    requires Answers(b, env) && !ForPool(env, body)
    ensures Continues(b, Answered(b, env, body), env)
  {
    var x := env.responses.serialise(Answer(env, body));
    OneMoreAnswered(env, b.taken, body);
    MergedSnoc(b.queued, Immediate(env, b.taken), b.handed, x);
    var after := Answered(b, env, body);
    assert after.queued == b.queued + [x] && after.taken == b.taken + [body];
    assert Merged(after.queued, Immediate(env, after.taken), after.handed);
    assert Requests(after.dispatched) == Forwarded(env, after.taken);
  }

  lemma PassedOnOk(b: Book, env: Env, body: seq<byte>)
    requires Answers(b, env) && ForPool(env, body)
    ensures Continues(b, PassedOn(b, body, env.requests.parse(body).value), env)
  {
    var q := env.requests.parse(body).value;
    OneMorePassedOn(env, b.taken, body);
    OneMoreRequest(b.dispatched, Dispatch(b.sequence + 1, q));
    OneMoreNumber(b.dispatched, b.sequence, q);
    var after := PassedOn(b, body, q);
    assert Immediate(env, after.taken) == Immediate(env, b.taken);
    assert Merged(after.queued, Immediate(env, after.taken), after.handed);
    assert Requests(after.dispatched) == Forwarded(env, after.taken);
  }

  lemma MergedSnoc(all: seq<seq<byte>>, own: seq<seq<byte>>, other: seq<seq<byte>>, x: seq<byte>)
    requires Merged(all, own, other)
    ensures Merged(all + [x], own + [x], other)
  {
  }

  lemma OneMoreNumber(ds: seq<Dispatch>, last: nat, q: Request)
    requires Numbered(ds, last)
    ensures Numbered(ds + [Dispatch(last + 1, q)], last + 1)
  {
    assert (ds + [Dispatch(last + 1, q)])[..|ds|] == ds;
  }

  lemma RefusedOk(b: Book, env: Env, n: nat)
    requires Answers(b, env)
    ensures Continues(b, Refused(b, n), env)
  {
  }

  lemma ContinuesOn(a: Book, b: Book, c: Book, env: Env)
    requires Continues(a, b, env) && Continues(b, c, env)
    ensures Continues(a, c, env)
  {
  }

  lemma TakeRequestEffect(c: Io, env: Env, now: nat, n: nat)
    requires FirstFrame(c.inbuf) == Whole(n)
    ensures var (d, ok) := TakeRequest(c, env, now, n); var body := c.inbuf[HEADER_BYTES..HEADER_BYTES + n];
            if !ok then BookOf(d) == Refused(BookOf(c), d.sequence - c.sequence) && d.sequence >= c.sequence
            else if ForPool(env, body) then BookOf(d) == PassedOn(BookOf(c), body, env.requests.parse(body).value)
            else BookOf(d) == Answered(BookOf(c), env, body)
  {
  }

  lemma TakeRequestAnswers(c: Io, env: Env, now: nat, n: nat)
    requires FirstFrame(c.inbuf) == Whole(n) && Answers(BookOf(c), env)
    ensures Continues(BookOf(c), BookOf(TakeRequest(c, env, now, n).0), env)
  {
    TakeRequestEffect(c, env, now, n);
    var (d, ok) := TakeRequest(c, env, now, n);
    var body := c.inbuf[HEADER_BYTES..HEADER_BYTES + n];
    if !ok { RefusedOk(BookOf(c), env, d.sequence - c.sequence); }
    else if ForPool(env, body) { PassedOnOk(BookOf(c), env, body); }
    else { AnsweredOk(BookOf(c), env, body); }
  }

  lemma {:induction false} TakeRequestsAnswers(c: Io, env: Env, now: nat)
    requires Answers(BookOf(c), env)
    ensures Continues(BookOf(c), BookOf(TakeRequests(c, env, now).0), env)
    decreases |c.inbuf|
  {
    match FirstFrame(c.inbuf)
    case Whole(n) =>
      TakeRequestAnswers(c, env, now, n);
      var (d, ok) := TakeRequest(c, env, now, n);
      if ok {
        TakeRequestsAnswers(d, env, now);
        ContinuesOn(BookOf(c), BookOf(d), BookOf(TakeRequests(d, env, now).0), env);
      }
    case _ =>
  }

  lemma ReadDataAnswers(c: Io, run: RecvRun, env: Env, now: nat)
    requires Answers(BookOf(c), env)
    ensures Continues(BookOf(c), BookOf(ReadData(c, run, env, now).0), env)
  {
    var d := Receive(c, Flatten(run.pieces));
    assert BookOf(d) == BookOf(c);
    if run.end.WouldBlock? && d.inbuf != [] { TakeRequestsAnswers(d, env, now); }
  }

  lemma {:induction false} FlushKeepsBook(c: Io, results: seq<SendOutcome>)
    requires ChunksOk(c.chunks)
    ensures BookOf(Flush(c, results).0) == BookOf(c)
    decreases |results|
  {
    if |c.chunks| > 0 && |results| > 0 {
      match results[0]
      case SendInterrupted => FlushKeepsBook(c, results[1..]);
      case Sent(n) => if n > 0 { FlushKeepsBook(SendSome(c, n), results[1..]); }
      case _ =>
    }
  }

  // The coroutine, for any property of the book that reading keeps.

  ghost predicate KeptByReading(keep: Book -> bool, env: Env)
  {
    forall c: Io, run: RecvRun, now: nat ::
      keep(BookOf(c)) ==> keep(BookOf(ReadData(c, run, env, now).0))
  }

  lemma {:induction false} FromTopKeeps(c: Conn, env: Env, now: nat, keep: Book -> bool)
    requires ChunksOk(c.io.chunks) && KeptByReading(keep, env) && keep(BookOf(c.io))
    ensures keep(BookOf(FromTop(c, env, now).io))
    decreases Flags(c), 0
  {
    if !c.shouldClose && c.readReady { AfterReadKeeps(c.(readReady := false, readDeadline := None), env, now, keep); }
  }

  lemma OnReadableKeeps(c: Conn, env: Env, now: nat, keep: Book -> bool)
    requires KeptByReading(keep, env) && keep(BookOf(c.io))
    ensures var (d, ok) := OnReadable(c, env, now);
            keep(BookOf(d.io)) && d.readReady == c.readReady && d.writeReady == c.writeReady
  {
    var (io, verdict) := ReadData(c.io, env.recv(c.recvs), env, now);
    assert keep(BookOf(io));
    OnReadableBook(c, env, now);
  }

  lemma {:induction false} AfterReadKeeps(c: Conn, env: Env, now: nat, keep: Book -> bool)
    requires ChunksOk(c.io.chunks) && KeptByReading(keep, env) && keep(BookOf(c.io))
    ensures keep(BookOf(AfterRead(c, env, now).io))
    decreases Flags(c), 2
  {
    if !c.shouldClose {
      OnReadableKeeps(c, env, now, keep);
      var (d, ok) := OnReadable(c, env, now);
      if ok && !d.shouldClose { WriteLoopKeeps(d, env, now, keep); }
    }
  }

  lemma {:induction false} WriteLoopKeeps(c: Conn, env: Env, now: nat, keep: Book -> bool)
    requires ChunksOk(c.io.chunks) && KeptByReading(keep, env) && keep(BookOf(c.io))
    ensures keep(BookOf(WriteLoop(c, env, now).io))
    decreases Flags(c), 1
  {
    if c.io.chunks == [] { FromTopKeeps(c, env, now, keep); }
    else if c.writeReady {
      AfterWriteKeeps(c.(writeReady := false, io := c.io.(writeDeadline := None)), env, now, keep);
    }
  }

  lemma {:induction false} AfterWriteKeeps(c: Conn, env: Env, now: nat, keep: Book -> bool)
    requires ChunksOk(c.io.chunks) && KeptByReading(keep, env) && keep(BookOf(c.io))
    ensures keep(BookOf(AfterWrite(c, env, now).io))
    decreases Flags(c), 2
  {
    if !c.shouldClose {
      OnWritableKeepsBook(c, env, now);
      var (d, ok) := OnWritable(c, env, now);
      if ok && !d.shouldClose { WriteLoopKeeps(d, env, now, keep); }
    }
  }

  /** The property the chain above is used for. */
  lemma AnsweringIsKept(a: Book, env: Env)
    ensures KeptByReading((b: Book) => Continues(a, b, env), env)
  {
    forall c: Io, run: RecvRun, now: nat | Continues(a, BookOf(c), env)
      ensures Continues(a, BookOf(ReadData(c, run, env, now).0), env)
    {
      ReadDataAnswers(c, run, env, now);
      ContinuesOn(a, BookOf(c), BookOf(ReadData(c, run, env, now).0), env);
    }
  }

  lemma NotifyReadableAnswers(c: Conn, env: Env, now: nat)
    requires ChunksOk(c.io.chunks) && Answers(BookOf(c.io), env)
    ensures Continues(BookOf(c.io), BookOf(NotifyReadable(c, env, now).io), env)
  {
    AnsweringIsKept(BookOf(c.io), env);
    var base := BookOf(c.io);
    RefusedOk(base, env, 0);
    if c.readWaiter {
      AfterReadKeeps(c.(state := Reading, readWaiter := false, readReady := false, readDeadline := None), env, now,
                     (b: Book) => Continues(base, b, env));
    }
  }

  lemma NotifyWritableAnswers(c: Conn, env: Env, now: nat)
    requires ChunksOk(c.io.chunks) && Answers(BookOf(c.io), env)
    ensures Continues(BookOf(c.io), BookOf(NotifyWritable(c, env, now).io), env)
  {
    AnsweringIsKept(BookOf(c.io), env);
    var base := BookOf(c.io);
    RefusedOk(base, env, 0);
    if c.writeWaiter {
      AfterWriteKeeps(c.(state := Writing, writeWaiter := false, writeReady := false,
                         io := c.io.(writeDeadline := None)),
                      env, now, (b: Book) => Continues(base, b, env));
    }
  }

  /** Being resumed once it is to close, a connection touches nothing but its deadlines. */
  lemma ClosingTouchesNothing(c: Conn, env: Env, now: nat)
    requires ChunksOk(c.io.chunks)
    ensures var d := MarkClosing(c, env, now).io; d == c.io.(writeDeadline := None)
    ensures var d := Tick(c, env, now).io; d == c.io || d == c.io.(writeDeadline := None)
  {
  }

  /** A pool result is queued and recorded as one. */
  lemma DeliverAnswers(c: Conn, env: Env, now: nat, r: Response)
    requires ChunksOk(c.io.chunks) && Answers(BookOf(c.io), env)
    ensures var (d, ok) := Deliver(c, env, now, r);
            Continues(BookOf(if ok then Handed(c.io, env.responses.serialise(r)) else c.io), BookOf(d.io), env)
  {
    var (io, ok) := Enqueue(c.io, env, now, r);
    if ok {
      var d := Handed(io, env.responses.serialise(r));
      HandedOk(BookOf(c.io), env, env.responses.serialise(r));
      NotifyReadableAnswers(c.(io := d), env, now);
    } else {
      RefusedOk(BookOf(c.io), env, 0);
    }
  }

  lemma HandedOk(b: Book, env: Env, body: seq<byte>)
    requires Answers(b, env)
    ensures Answers(b.(queued := b.queued + [body], handed := b.handed + [body]), env)
  {
  }

  // ---------------------------------------------------------------------------------------
  // While the coroutine runs
  // ---------------------------------------------------------------------------------------

  /** The streams are in order, the write deadline is armed exactly while something is queued, and every body taken has
      been answered or forwarded. */
  ghost predicate InOrder(c: Io, env: Env, live: bool) { DataOk(c, env, live) && Timed(c) && Answers(BookOf(c), env) }

  lemma TakeRequestSound(c: Io, env: Env, now: nat, n: nat)
    requires InOrder(c, env, false) && FirstFrame(c.inbuf) == Whole(n)
    ensures var d := TakeRequest(c, env, now, n).0; InOrder(d, env, false) && Continues(BookOf(c), BookOf(d), env)
  {
    TakeRequestOk(c, env, now, n);
    TakeRequestAnswers(c, env, now, n);
  }

  lemma OnReadableSound(c: Conn, env: Env, now: nat)
    requires Running(c) && !c.shouldClose && InOrder(c.io, env, true)
    ensures var (d, ok) := OnReadable(c, env, now);
            && Running(d) && (!ok ==> d.shouldClose) && Continues(BookOf(c.io), BookOf(d.io), env)
            && (if d.shouldClose then DataOk(d.io, env, false) else InOrder(d.io, env, true))
  {
    OnReadableOk(c, env, now);
    ReadDataAnswers(c.io, env.recv(c.recvs), env, now);
    OnReadableBook(c, env, now);
  }

  lemma OnReadableBook(c: Conn, env: Env, now: nat)
    ensures BookOf(OnReadable(c, env, now).0.io) == BookOf(ReadData(c.io, env.recv(c.recvs), env, now).0)
  {
  }

  lemma OnWritableSound(c: Conn, env: Env, now: nat)
    requires Running(c) && !c.shouldClose && DataOk(c.io, env, true) && Answers(BookOf(c.io), env)
    ensures var (d, ok) := OnWritable(c, env, now);
            && Running(d) && (!ok ==> d.shouldClose) && BookOf(d.io) == BookOf(c.io)
            && (if d.shouldClose then DataOk(d.io, env, false) else InOrder(d.io, env, true))
  {
    OnWritableOk(c, env, now);
    OnWritableKeepsBook(c, env, now);
  }

  lemma OnWritableKeepsBook(c: Conn, env: Env, now: nat)
    requires ChunksOk(c.io.chunks)
    ensures BookOf(OnWritable(c, env, now).0.io) == BookOf(c.io)
  {
    FlushKeepsBook(c.io, env.send(c.flushes));
  }

  lemma {:induction false} ImmediateAnswers(env: Env, taken: seq<seq<byte>>, b: seq<byte>)
    requires b in Immediate(env, taken)
    ensures exists j :: 0 <= j < |taken| && b == env.responses.serialise(Answer(env, taken[j]))
  {
    var before, last := taken[..|taken| - 1], taken[|taken| - 1];
    if ForPool(env, last) || b in Immediate(env, before) {
      ImmediateAnswers(env, before, b);
      var j :| 0 <= j < |before| && b == env.responses.serialise(Answer(env, before[j]));
      assert taken[j] == before[j];
    }
  }

  lemma {:induction false} ForwardedWasTaken(env: Env, taken: seq<seq<byte>>, q: Request)
    requires q in Forwarded(env, taken)
    ensures exists j :: 0 <= j < |taken| && Serve(env.registry, q) == Answer(env, taken[j])
  {
    var before, last := taken[..|taken| - 1], taken[|taken| - 1];
    if !ForPool(env, last) || q in Forwarded(env, before) {
      ForwardedWasTaken(env, before, q);
      var j :| 0 <= j < |before| && Serve(env.registry, q) == Answer(env, before[j]);
      assert taken[j] == before[j];
    }
  }

  lemma {:induction false} DispatchedWasForwarded(ds: seq<Dispatch>, d: Dispatch)
    requires d in ds
    ensures d.request in Requests(ds)
  {
    if d != ds[|ds| - 1] { DispatchedWasForwarded(ds[..|ds| - 1], d); }
  }
}
