/**
  Client and server joined by byte streams.  A run of a client and, for each of its connections, a run of the worker at
  the other end: each side has received some first part of what the other has sent.
 */
module EndToEnd {
  import opened Common
  import opened Framing
  import opened Rpc
  import Connection
  import ConnectionProofs
  import ConnectionAnswers
  import W = WorkerLoop
  import WorkerTheorems
  import opened ClientCalls
  import opened ClientProofs
  import opened ClientRuns

  /** The other end of a connection: a run of a worker and the connection, open or closed, in it. */
  datatype Peer = Peer(world: W.World, actions: seq<W.Action>, token: nat, conn: Connection.Conn)
  {
    function Env(): Connection.Env { world(token) }

    ghost predicate Exists() { WorkerTheorems.HasToken(WorkerTheorems.RunFromStart(world, actions), token, conn) }
  }

  /** The bytes that were put on the wire. */
  function Bytes(wire: seq<Piece>): seq<byte>
  {
    if |wire| == 0 then []
    else Bytes(wire[..|wire| - 1]) + PieceBytes(wire[|wire| - 1])
  }

  function PieceBytes(p: Piece): seq<byte>
  {
    if p.Part? then p.bytes else if ValidLength(|p.body|) then Frame(p.body) else []
  }

  lemma BytesSnoc(wire: seq<Piece>, p: Piece)
    ensures Bytes(wire + [p]) == Bytes(wire) + PieceBytes(p)
  {
    assert (wire + [p])[..|wire|] == wire;
  }

  ghost predicate Linked(x: Session, peer: Peer, codecs: Codecs)
  {
    && peer.Exists() && peer.Env().requests == codecs.requests && peer.Env().responses == codecs.responses
    && peer.conn.io.received <= Bytes(x.wire) && x.received <= peer.conn.io.sent
  }

  /** The response a server owes to a request. */
  function Owed(registry: Registry, q: Request): Response
  {
    if q.service == HEARTBEAT_SERVICE then HeartbeatReply(q) else Serve(registry, q)
  }

  function ResultOf(r: Response): Result { Result(r.code, r.message, r.payload) }

  // ---------------------------------------------------------------------------------------
  // The response path
  // ---------------------------------------------------------------------------------------

  /** Frames read from a prefix of a stream of frames are the first of them. */
  lemma FramesOfPrefix(bodies: seq<seq<byte>>, part: seq<byte>)
    requires Sendable(bodies) && part <= Frames(bodies)
    ensures Parse(part).bodies <= bodies
  {
    assert part == Frames(bodies)[..|part|];
    PrefixRoundTrip(bodies, |part|);
  }

  /** What the client reads was queued by the server. */
  lemma ReadWasQueued(x: Session, calls: seq<Call>, codecs: Codecs, peer: Peer, j: nat)
    requires SessionOk(x, calls, codecs) && Linked(x, peer, codecs) && j < |x.frames|
    ensures j < |peer.conn.io.queued| && x.frames[j] == peer.conn.io.queued[j]
  {
    var io := peer.conn.io;
    ServerSide(peer);
    assert io.sent <= Frames(io.queued);
    assert x.received <= Frames(io.queued);
    FramesOfPrefix(io.queued, x.received);
    assert x.frames[j] == Parse(x.received).bodies[j];
  }

  /** What a server connection has sent and taken, in any run. */
  lemma ServerSide(peer: Peer)
    requires peer.Exists()
    ensures var io := peer.conn.io;
            && Sendable(io.queued) && io.sent <= Frames(io.queued)
            && OnTheWay(io.received, io.taken, io.inbuf)
  {
    var w := WorkerTheorems.RunFromStart(peer.world, peer.actions);
    WorkerTheorems.EveryRun(peer.world, peer.actions);
    WorkerTheorems.TokenFacts(w, peer.world, peer.token, peer.conn);
    var io := peer.conn.io;
    assert ConnectionProofs.WriteOk(io, peer.Env());
    assert io.sent + Connection.Unsent(io.chunks) == Frames(io.queued);
  }

  // ---------------------------------------------------------------------------------------
  // The request path
  // ---------------------------------------------------------------------------------------

  /** A frame whose write broke off adds nothing to what a peer can read. */
  lemma BrokenTail(bodies: seq<seq<byte>>, tail: seq<byte>, part: seq<byte>)
    requires Sendable(bodies) && Unfinished(tail) && part <= Frames(bodies) + tail
    ensures Parse(part).bodies <= bodies
  {
    var all := Frames(bodies);
    if |part| <= |all| {
      assert part <= all;
      FramesOfPrefix(bodies, part);
    } else {
      var cut := part[|all|..];
      assert part == all + cut && cut <= tail;
      assert all == all[..|all|];
      PrefixRoundTrip(bodies, |all|);
      ParseAppend(all, cut);
      assert [] + cut == cut;
      CutReadsNothing(tail, cut);
    }
  }

  lemma CutReadsNothing(tail: seq<byte>, cut: seq<byte>)
    requires Unfinished(tail) && cut <= tail && cut != []
    ensures Parse(cut).bodies == []
  {
    var body: seq<byte> :| ValidLength(|body|) && |tail| < |Frame(body)| && tail == Frame(body)[..|tail|];
    assert cut == Frame(body)[..|cut|];
    ParseCutFrame(body, |cut|);
  }

  lemma {:induction false} WholeBytes(bodies: seq<seq<byte>>)
    requires Sendable(bodies)
    ensures Bytes(Wholes(bodies)) == Frames(bodies)
  {
    if |bodies| > 0 {
      var before, last := bodies[..|bodies| - 1], bodies[|bodies| - 1];
      WholeBytes(before);
      assert before + [last] == bodies;
      OneMoreWhole(before, last);
    }
  }

  lemma OneMoreWhole(bodies: seq<seq<byte>>, body: seq<byte>)
    requires Sendable(bodies) && ValidLength(|body|) && Bytes(Wholes(bodies)) == Frames(bodies)
    ensures Sendable(bodies + [body]) && Bytes(Wholes(bodies + [body])) == Frames(bodies + [body])
  {
    assert (bodies + [body])[..|bodies|] == bodies;
    FramesSnoc(bodies, body);
    BytesSnoc(Wholes(bodies), Full(body));
  }

  lemma UntornBytes(bodies: seq<seq<byte>>, tail: seq<byte>)
    requires Sendable(bodies)
    ensures Bytes(Wholes(bodies) + Rest(tail)) == Frames(bodies) + tail
  {
    WholeBytes(bodies);
    if tail == [] {
      assert Wholes(bodies) + [] == Wholes(bodies);
    } else {
      BytesSnoc(Wholes(bodies), Part(tail));
    }
  }

  /** What the server took was written by the client. */
  lemma TakenWasWritten(x: Session, calls: seq<Call>, codecs: Codecs, peer: Peer, i: nat)
    requires SessionOk(x, calls, codecs) && !x.torn && Linked(x, peer, codecs) && i < |peer.conn.io.taken|
    ensures i < |x.bodies| && peer.conn.io.taken[i] == x.bodies[i]
  {
    var io := peer.conn.io;
    ServerSide(peer);
    UntornBytes(x.bodies, x.tail);
    BrokenTail(x.bodies, x.tail, io.received);
    assert io.taken[i] == Parse(io.received).bodies[i];
  }

  // ---------------------------------------------------------------------------------------
  // Matching
  // ---------------------------------------------------------------------------------------

  /** The answer to a written body carries the id of a call only if it is the answer to that call's own request. */
  lemma OnlyItsOwnAnswer(c: Client, codecs: Codecs, env: Connection.Env, body: seq<byte>, n: nat)
    requires Inv(c, codecs) && codecs.requests.Lawful() && env.requests == codecs.requests
    requires Ours(body, c.calls, codecs) && n < |c.calls|
    requires ConnectionAnswers.Answer(env, body).id == c.calls[n].Id()
    ensures ConnectionAnswers.Answer(env, body) == Owed(env.registry, c.calls[n].request)
  {
    if m :| 0 <= m < |c.calls| && body == codecs.requests.serialise(c.calls[m].request) {
      SameCallAnswered(c.calls, c.nextId, c.pending.nextSerial, codecs, env, m, n);
    } else {
      var m: nat :| body == codecs.requests.serialise(HeartbeatRequest(m));
      NeverAHeartbeat(env, codecs, body, m, c.calls[n].number);
    }
  }

  lemma SameCallAnswered(calls: seq<Call>, nextId: nat, nextSerial: nat, codecs: Codecs, env: Connection.Env, m: nat,
                         n: nat)
    requires Numbered(calls, nextId, nextSerial) && codecs.requests.Lawful() && env.requests == codecs.requests
    requires m < |calls| && n < |calls|
    requires ConnectionAnswers.Answer(env, codecs.requests.serialise(calls[m].request)).id == calls[n].Id()
    ensures ConnectionAnswers.Answer(env, codecs.requests.serialise(calls[m].request))
            == Owed(env.registry, calls[n].request)
  {
    assert env.requests.parse(codecs.requests.serialise(calls[m].request)) == Some(calls[m].request);
    assert calls[m].request.id == calls[m].Id();
    if calls[m].Id() == calls[n].Id() { DecimalInjective(calls[m].number, calls[n].number); }
  }

  lemma NeverAHeartbeat(env: Connection.Env, codecs: Codecs, body: seq<byte>, m: nat, number: nat)
    requires codecs.requests.Lawful() && env.requests == codecs.requests
    requires body == codecs.requests.serialise(HeartbeatRequest(m))
    ensures ConnectionAnswers.Answer(env, body).id != Decimal(number)
  {
    assert env.requests.parse(body) == Some(HeartbeatRequest(m));
    NotAHeartbeatId(number);
    assert IsHeartbeatId(HEARTBEAT_PREFIX + Decimal(m));
  }

  /** The response behind a remote outcome is the one owed to the call's own request. */
  lemma RemoteIsOwed(c: Client, codecs: Codecs, peer: Peer, n: nat, s: nat, r: Response)
    requires Inv(c, codecs) && codecs.requests.Lawful() && codecs.responses.Lawful()
    requires n < |c.calls| && s < |c.sessions| && !c.sessions[s].torn && Linked(c.sessions[s], peer, codecs)
    requires r.id == c.calls[n].Id() && Read(c.sessions[s], r, codecs)
    ensures r == Owed(peer.Env().registry, c.calls[n].request)
  {
    var x, io, env := c.sessions[s], peer.conn.io, peer.Env();
    assert SessionOk(x, c.calls, codecs);
    var j :| 0 <= j < |x.frames| && codecs.responses.parse(x.frames[j]) == Some(r);
    ReadWasQueued(x, c.calls, codecs, peer, j);
    WorkerTheorems.QueuedIsOwed(peer.world, peer.actions, peer.token, peer.conn, j);
    var i :| 0 <= i < |io.taken| && io.queued[j] == env.responses.serialise(ConnectionAnswers.Answer(env, io.taken[i]));
    assert r == ConnectionAnswers.Answer(env, io.taken[i]);
    TakenWasWritten(x, c.calls, codecs, peer, i);
    OnlyItsOwnAnswer(c, codecs, env, x.bodies[i], n);
  }

  // ---------------------------------------------------------------------------------------
  // The theorem
  // ---------------------------------------------------------------------------------------

  /** The connection that a remote result came from is joined to a server and was not used after a frame had broken off
      on it; nothing is asked of the client's other connections. */
  ghost predicate SourceWhole(c: Client, codecs: Codecs, peers: nat -> Peer, n: nat)
    requires n < |c.calls| && c.calls[n].phase.Returned?
  {
    var o := c.calls[n].phase.outcome;
    o.Remote? && o.session < |c.sessions| ==>
      !c.sessions[o.session].torn && Linked(c.sessions[o.session], peers(o.session), codecs)
  }

  /** In every run, with answers in any order, timeouts, closes and reconnects, what a call returns is a failure the
      client made itself, with no payload, or the result of the response owed to that call's own request by the server
      it came from; provided that the connection it came from was not used after a frame had broken off on it, which
      only a heartbeat can bring about.  `EndToEndTorn.TornResultNotOwed` shows that this is needed. */
  lemma EveryResultIsOwed(codecs: Codecs, actions: seq<Action>, peers: nat -> Peer, n: nat)
    requires codecs.requests.Lawful() && codecs.responses.Lawful()
    requires var c := Run(Init, codecs, actions);
             && n < |c.calls| && c.calls[n].phase.Returned?
             && SourceWhole(c, codecs, peers, n)
    ensures var k := Run(Init, codecs, actions).calls[n];
            match k.phase.outcome
            case Local(result) => result.code != OK && IsFailure(result)
            case Remote(result, s, _) => result == ResultOf(Owed(peers(s).Env().registry, k.request))
  {
    EveryRun(codecs, actions);
    ReturnsItsFirstOutcome(codecs, actions, n);
    var c := Run(Init, codecs, actions);
    match c.calls[n].phase.outcome
    case Local(_) =>
    case Remote(_, s, r) => RemoteIsOwed(c, codecs, peers(s), n, s, r);
  }

  /** So a call gets exactly what the handler for its own key makes of its own payload if and only if it does not name
      the heartbeat service, or that handler would have answered OK with nothing. */
  lemma HandledExactlyWhen(codecs: Codecs, actions: seq<Action>, peers: nat -> Peer, n: nat)
    requires codecs.requests.Lawful() && codecs.responses.Lawful()
    requires var c := Run(Init, codecs, actions);
             && n < |c.calls| && c.calls[n].phase.Returned? && c.calls[n].phase.outcome.Remote?
             && SourceWhole(c, codecs, peers, n)
    ensures var k := Run(Init, codecs, actions).calls[n];
            var handled := ResultOf(Serve(peers(k.phase.outcome.session).Env().registry, k.request));
            k.phase.outcome.result == handled <==>
                k.request.service != HEARTBEAT_SERVICE || handled == Result(OK, "", [])
  {
    EveryResultIsOwed(codecs, actions, peers, n);
  }

  /** What is promised to the caller of `service`.`operation`, without reference to how a server computes it. */
  ghost predicate Promised(registry: Registry, service: string, operation: string, payload: seq<byte>, r: Result)
  {
    var key := service + "." + operation;
    if key !in registry then r == Result(MethodNotFound, "method not found: " + service + "." + operation, [])
    else
      var end := registry[key](payload);
      && (forall reply :: end == Reply(reply) ==> r == Result(OK, "", reply))
      && (forall code, what :: end == RpcFailure(code, what) ==> r == Result(code, what, []))
      && (forall what :: end == StdException(what) ==> r == Result(InternalError, "handler exception: " + what, []))
      && (end == UnknownException ==> r == Result(InternalError, "handler threw unknown exception", []))
  }

  /** So every remote result of a call is what the handler registered under its own service and operation made of its
      own payload, handed on unchanged, and tells a missing method from all that a handler can do. */
  lemma CallsGetWhatHandlersReturn(codecs: Codecs, actions: seq<Action>, peers: nat -> Peer, n: nat)
    requires codecs.requests.Lawful() && codecs.responses.Lawful()
    requires var c := Run(Init, codecs, actions);
             && n < |c.calls| && c.calls[n].phase.Returned? && c.calls[n].phase.outcome.Remote?
             && c.calls[n].request.service != HEARTBEAT_SERVICE
             && SourceWhole(c, codecs, peers, n)
    ensures var k := Run(Init, codecs, actions).calls[n];
            var q, r, registry := k.request, k.phase.outcome.result, peers(k.phase.outcome.session).Env().registry;
            var key := q.service + "." + q.operation;
            && Promised(registry, q.service, q.operation, q.payload, r)
            && (r.code == MethodNotFound <==>
                  key !in registry
                  || (registry[key](q.payload).RpcFailure? && registry[key](q.payload).code == MethodNotFound))
  {
    EveryResultIsOwed(codecs, actions, peers, n);
    var k := Run(Init, codecs, actions).calls[n];
    ServePromised(peers(k.phase.outcome.session).Env().registry, k.request);
  }

  lemma ServePromised(registry: Registry, q: Request)
    ensures var key := q.service + "." + q.operation;
            && Promised(registry, q.service, q.operation, q.payload, ResultOf(Serve(registry, q)))
            && (Serve(registry, q).code == MethodNotFound <==>
                  key !in registry
                  || (registry[key](q.payload).RpcFailure? && registry[key](q.payload).code == MethodNotFound))
  {
    assert "method not found: " + (q.service + "." + q.operation)
           == "method not found: " + q.service + "." + q.operation;
  }

  /** In every run a call that names the heartbeat service and gets a remote result gets OK and nothing, whatever is
      registered. */
  lemma HeartbeatServiceAnswersItself(codecs: Codecs, actions: seq<Action>, peers: nat -> Peer, n: nat)
    requires codecs.requests.Lawful() && codecs.responses.Lawful()
    requires var c := Run(Init, codecs, actions);
             && n < |c.calls| && c.calls[n].phase.Returned? && c.calls[n].phase.outcome.Remote?
             && c.calls[n].request.service == HEARTBEAT_SERVICE
             && SourceWhole(c, codecs, peers, n)
    ensures Run(Init, codecs, actions).calls[n].phase.outcome.result == Result(OK, "", [])
  {
    EveryResultIsOwed(codecs, actions, peers, n);
  }
}
