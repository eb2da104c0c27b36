/** How often servers take the request of a call, over all connections of its client. */
module EndToEndOnce {
  import opened Common
  import opened Framing
  import opened Rpc
  import ConnectionAnswers
  import WorkerTheorems
  import opened ClientCalls
  import opened ClientProofs
  import opened ClientRuns
  import opened ClientOnce
  import opened EndToEnd

  /** Connection s of the client is joined to a server and was not used after a frame had broken off on it. */
  ghost predicate Joined(c: Client, codecs: Codecs, peers: nat -> Peer, s: nat)
  {
    s < |c.sessions| && !c.sessions[s].torn && Linked(c.sessions[s], peers(s), codecs)
  }

  /** The server at the other end of connection s took the request of call n as its i-th. */
  ghost predicate TookAt(c: Client, codecs: Codecs, peers: nat -> Peer, n: nat, s: nat, i: nat)
    requires n < |c.calls|
  {
    && Joined(c, codecs, peers, s) && i < |peers(s).conn.io.taken|
    && peers(s).conn.io.taken[i] == codecs.requests.serialise(c.calls[n].request)
  }

  lemma TookWhatWasWritten(c: Client, codecs: Codecs, peers: nat -> Peer, n: nat, s: nat, i: nat)
    requires Inv(c, codecs) && n < |c.calls| && TookAt(c, codecs, peers, n, s, i)
    ensures i < |c.sessions[s].bodies| && c.sessions[s].bodies[i] == codecs.requests.serialise(c.calls[n].request)
  {
    assert SessionOk(c.sessions[s], c.calls, codecs);
    TakenWasWritten(c.sessions[s], c.calls, codecs, peers(s), i);
  }

  /** In every run a request is taken at most once: not twice by a server, nor by the servers of two connections. */
  lemma TakenAtMostOnce(codecs: Codecs, actions: seq<Action>, peers: nat -> Peer, n: nat, s: nat, i: nat, t: nat,
                        j: nat)
    requires codecs.requests.Lawful()
    requires var c := Run(Init, codecs, actions);
             n < |c.calls| && TookAt(c, codecs, peers, n, s, i) && TookAt(c, codecs, peers, n, t, j)
    ensures s == t && i == j
  {
    var c := Run(Init, codecs, actions);
    EveryRun(codecs, actions);
    TookWhatWasWritten(c, codecs, peers, n, s, i);
    TookWhatWasWritten(c, codecs, peers, n, t, j);
    WrittenAtMostOnce(codecs, actions, n);
    OnePlace(c.sessions, codecs.requests.serialise(c.calls[n].request), s, i, t, j);
  }

  /** A request whose send failed at some point of a run is never taken by a server, whatever happens afterwards. */
  lemma FailedSendNeverTaken(codecs: Codecs, before: seq<Action>, after: seq<Action>, peers: nat -> Peer, n: nat,
                             s: nat, i: nat)
    requires codecs.requests.Lawful() && n < |Run(Init, codecs, before).calls|
    requires Run(Init, codecs, before).calls[n].phase == SendFailed
    ensures var c := Run(Init, codecs, before + after); n < |c.calls| && !TookAt(c, codecs, peers, n, s, i)
  {
    var c := Run(Init, codecs, before + after);
    FailedSendNeverWritten(codecs, before, after, n);
    if TookAt(c, codecs, peers, n, s, i) {
      EveryRun(codecs, before + after);
      TookWhatWasWritten(c, codecs, peers, n, s, i);
      Occurs(c.sessions[s].bodies, i);
      OccursOn(c.sessions, s, c.sessions[s].bodies[i]);
    }
  }

  /** A call with a remote result was taken exactly once, over all connections joined to a server: by the server whose
      response it returns. */
  lemma AnsweredWasTakenOnce(codecs: Codecs, actions: seq<Action>, peers: nat -> Peer, n: nat)
    requires codecs.requests.Lawful() && codecs.responses.Lawful()
    requires var c := Run(Init, codecs, actions);
             && n < |c.calls| && c.calls[n].phase.Returned? && c.calls[n].phase.outcome.Remote?
             && Joined(c, codecs, peers, c.calls[n].phase.outcome.session)
    ensures var c := Run(Init, codecs, actions); var home := c.calls[n].phase.outcome.session;
            exists i :: TookAt(c, codecs, peers, n, home, i)
                        && forall t, j :: TookAt(c, codecs, peers, n, t, j) ==> t == home && j == i
  {
    var c := Run(Init, codecs, actions);
    var home := c.calls[n].phase.outcome.session;
    EveryRun(codecs, actions);
    ReturnsItsFirstOutcome(codecs, actions, n);
    var i := AnsweredWasTaken(c, codecs, peers, n, home, c.calls[n].phase.outcome.response);
    forall t, j | TookAt(c, codecs, peers, n, t, j) ensures t == home && j == i {
      TakenAtMostOnce(codecs, actions, peers, n, home, i, t, j);
    }
  }

  lemma AnsweredWasTaken(c: Client, codecs: Codecs, peers: nat -> Peer, n: nat, s: nat, r: Response) returns (i: nat)
    requires Inv(c, codecs) && codecs.requests.Lawful() && codecs.responses.Lawful() && n < |c.calls|
    requires Joined(c, codecs, peers, s) && r.id == c.calls[n].Id() && Read(c.sessions[s], r, codecs)
    ensures TookAt(c, codecs, peers, n, s, i)
  {
    var x, peer := c.sessions[s], peers(s);
    var io, env := peer.conn.io, peer.Env();
    assert SessionOk(x, c.calls, codecs);
    var j :| 0 <= j < |x.frames| && codecs.responses.parse(x.frames[j]) == Some(r);
    ReadWasQueued(x, c.calls, codecs, peer, j);
    WorkerTheorems.QueuedIsOwed(peer.world, peer.actions, peer.token, peer.conn, j);
    i :| 0 <= i < |io.taken| && io.queued[j] == env.responses.serialise(ConnectionAnswers.Answer(env, io.taken[i]));
    assert r == ConnectionAnswers.Answer(env, io.taken[i]);
    TakenWasWritten(x, c.calls, codecs, peer, i);
    OnlyItsOwnBody(c, codecs, peer, x.bodies[i], n);
  }

  /** Only the call's own request is answered with its id. */
  lemma OnlyItsOwnBody(c: Client, codecs: Codecs, peer: Peer, body: seq<byte>, n: nat)
    requires Inv(c, codecs) && codecs.requests.Lawful() && peer.Env().requests == codecs.requests
    requires Ours(body, c.calls, codecs) && n < |c.calls|
    requires ConnectionAnswers.Answer(peer.Env(), body).id == c.calls[n].Id()
    ensures body == codecs.requests.serialise(c.calls[n].request)
  {
    if m :| 0 <= m < |c.calls| && body == codecs.requests.serialise(c.calls[m].request) {
      assert codecs.requests.parse(body) == Some(c.calls[m].request);
      OwnIds(c, codecs, m);
      OwnId(c, m, n);
    } else {
      var m: nat :| body == codecs.requests.serialise(HeartbeatRequest(m));
      NeverAHeartbeat(peer.Env(), codecs, body, m, c.calls[n].number);
    }
  }

  /** So a call made with some arguments gets what the handler registered under those names made of that payload. */
  lemma AnsweredAsAsked(codecs: Codecs, actions: seq<Action>, peers: nat -> Peer, n: nat)
    requires codecs.requests.Lawful() && codecs.responses.Lawful() && n < |Asked(actions)|
    requires Asked(actions)[n].service != HEARTBEAT_SERVICE
    ensures n < |Run(Init, codecs, actions).calls|
    ensures var c := Run(Init, codecs, actions); var k := c.calls[n]; var a := Asked(actions)[n];
            k.phase.Returned? && k.phase.outcome.Remote? && SourceWhole(c, codecs, peers, n) ==>
                Promised(peers(k.phase.outcome.session).Env().registry, a.service, a.operation, a.payload,
                         k.phase.outcome.result)
  {
    CallsAreAsAsked(codecs, actions);
    var c := Run(Init, codecs, actions);
    assert AsAsked(c.calls[n], Asked(actions)[n]);
    var o := c.calls[n].phase;
    if o.Returned? && o.outcome.Remote? && SourceWhole(c, codecs, peers, n) {
      CallsGetWhatHandlersReturn(codecs, actions, peers, n);
    }
  }
}
