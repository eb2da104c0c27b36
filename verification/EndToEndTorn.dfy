/** A heartbeat that breaks off: what a connection that is used after that can do to a call. */
module EndToEndTorn {
  import opened Common
  import opened Framing
  import opened Rpc
  import P = PendingCalls
  import opened ClientCalls
  import opened EndToEnd
  import opened EndToEndRun
  import PlainCodec

  /** The connection after k bytes of the first heartbeat. */
  function Broken(part: seq<byte>): Session { FRESH.(tail := part, wire := [Part(part)]) }

  function Prologue(q: Request, k: nat, rest: seq<Action>): seq<Action>
  {
    [DoConnect] + ([DoHeartbeat(false, k)] + ([DoBegin(false, q.service, q.operation, q.payload)] + rest))
  }

  lemma HeartbeatTorn(codecs: Codecs, k: nat, part: seq<byte>)
    requires part != [] && part == Cut(codecs.requests.serialise(HeartbeatRequest(1)), k)
    ensures SendHeartbeat(Connect(Init), codecs, false, k) == Client(P.Init<Outcome>(), 1, [], [Broken(part)])
  {
    assert FRESH.wire + [Part(part)] == [Part(part)];
    assert Connect(Init).sessions == [FRESH];
  }

  lemma TornStart(codecs: Codecs, q: Request, k: nat, part: seq<byte>, rest: seq<Action>)
    requires q.id == Decimal(2) && part != [] && part == Cut(codecs.requests.serialise(HeartbeatRequest(1)), k)
    ensures Run(Init, codecs, Prologue(q, k, rest)) == Run(Begun(2, q, Broken(part)), codecs, rest)
  {
    var begin := DoBegin(false, q.service, q.operation, q.payload);
    RunCons(Init, codecs, DoConnect, [DoHeartbeat(false, k)] + ([begin] + rest));
    RunCons(Connect(Init), codecs, DoHeartbeat(false, k), [begin] + rest);
    HeartbeatTorn(codecs, k, part);
    BegunAfter(codecs, q, part, rest);
  }

  lemma BegunAfter(codecs: Codecs, q: Request, part: seq<byte>, rest: seq<Action>)
    requires q.id == Decimal(2)
    ensures Run(Client(P.Init<Outcome>(), 1, [], [Broken(part)]), codecs,
                [DoBegin(false, q.service, q.operation, q.payload)] + rest)
         == Run(Begun(2, q, Broken(part)), codecs, rest)
  {
    var begin := DoBegin(false, q.service, q.operation, q.payload);
    RunCons(Client(P.Init<Outcome>(), 1, [], [Broken(part)]), codecs, begin, rest);
    Begins(1, q, Broken(part));
  }

  lemma TwoPieces(part: seq<byte>, body: seq<byte>)
    requires ValidLength(|body|)
    ensures Bytes([Part(part)] + [Full(body)]) == part + Frame(body)
  {
    BytesSnoc([Part(part)], Full(body));
    BytesSnoc([], Part(part));
    assert [] + [Part(part)] == [Part(part)] && [] + part == part;
  }

  /** The first k bytes of the heartbeat's frame, with all of its header, end inside the frame of the request that
      follows. */
  predicate Tears(codecs: Codecs, q: Request, k: nat)
  {
    && q.id == Decimal(2) && codecs.requests.Fits(q) && codecs.requests.Fits(HeartbeatRequest(1))
    && var h, b := codecs.requests.serialise(HeartbeatRequest(1)), codecs.requests.serialise(q);
       HEADER_BYTES <= k < |Frame(h)| <= k + |Frame(b)|
  }

  /** The body made of the heartbeat's beginning and the request's. */
  function Mixed(codecs: Codecs, q: Request, k: nat): seq<byte>
    requires Tears(codecs, q, k)
  {
    Spliced(codecs.requests.serialise(HeartbeatRequest(1)), k, codecs.requests.serialise(q))
  }

  /** After a heartbeat of which k bytes got onto the wire the connection is still used: the request that follows is
      taken for written, and yet the first body a server reads is made of the heartbeat's beginning and the
      request's. */
  lemma TornHeartbeatMisleads(codecs: Codecs, q: Request, k: nat)
    requires Tears(codecs, q, k)
    ensures var c := Run(Init, codecs, Prologue(q, k, [DoWrite(0, true, 0, "")] + []));
            && |c.calls| == |c.sessions| == 1 && c.calls[0].request == q && c.calls[0].phase == Sent
            && c.sessions[0].torn
            && var got := Parse(Bytes(c.sessions[0].wire)).bodies; |got| > 0 && got[0] == Mixed(codecs, q, k)
  {
    var h, b := codecs.requests.serialise(HeartbeatRequest(1)), codecs.requests.serialise(q);
    var part := Frame(h)[..k];
    TornStart(codecs, q, k, part, [DoWrite(0, true, 0, "")] + []);
    RunCons(Begun(2, q, Broken(part)), codecs, DoWrite(0, true, 0, ""), []);
    SentWhole(codecs, 2, q, Broken(part));
    TwoPieces(part, b);
    TornFrameMisread(h, k, b);
  }

  /** If that body happens to read as a request with the id of the call, the call returns the answer to that request. */
  lemma TornCallMisanswered(codecs: Codecs, registry: Registry, q: Request, k: nat, read: Request, maxWrite: nat,
                            fd: int)
    requires Tears(codecs, q, k) && codecs.responses.Lawful() && read.id == q.id
    requires Reads(codecs, registry, Mixed(codecs, q, k), read, maxWrite)
    ensures var rb := codecs.responses.serialise(Owed(registry, read));
            var c := Run(Init, codecs, Prologue(q, k, Exchange(Frame(rb))));
            && |c.calls| == |c.sessions| == 1 && c.calls[0].request == q && c.sessions[0].torn
            && Linked(c.sessions[0], Server(codecs, registry, Mixed(codecs, q, k), rb, maxWrite, fd), codecs)
            && c.calls[0].phase == Returned(FromServer(0, Owed(registry, read)))
  {
    var part := Frame(codecs.requests.serialise(HeartbeatRequest(1)))[..k];
    TornClient(codecs, q, k, part, Owed(registry, read));
    TornLink(codecs, registry, q, k, part, read, maxWrite, fd);
  }

  /** The connection at the end. */
  function Misused(codecs: Codecs, q: Request, part: seq<byte>, rb: seq<byte>): Session
    requires ValidLength(|rb|)
  {
    Put(Broken(part), codecs.requests.serialise(q)).(received := Frame(rb), frames := [rb])
  }

  lemma TornClient(codecs: Codecs, q: Request, k: nat, part: seq<byte>, r: Response)
    requires Tears(codecs, q, k) && codecs.responses.Lawful() && codecs.responses.Fits(r) && r.id == Decimal(2)
    requires part == Frame(codecs.requests.serialise(HeartbeatRequest(1)))[..k]
    ensures var rb := codecs.responses.serialise(r);
            Run(Init, codecs, Prologue(q, k, Exchange(Frame(rb))))
            == During(Woken(FromServer(0, r)), 2, q, Returned(FromServer(0, r)), Misused(codecs, q, part, rb))
  {
    TornStart(codecs, q, k, part, Exchange(Frame(codecs.responses.serialise(r))));
    Exchanged(codecs, 2, q, Broken(part), r);
  }

  lemma TornLink(codecs: Codecs, registry: Registry, q: Request, k: nat, part: seq<byte>, read: Request, maxWrite: nat,
                 fd: int)
    requires Tears(codecs, q, k) && part == Frame(codecs.requests.serialise(HeartbeatRequest(1)))[..k]
    requires Reads(codecs, registry, Mixed(codecs, q, k), read, maxWrite)
    ensures var rb := codecs.responses.serialise(Owed(registry, read));
            var peer := Server(codecs, registry, Mixed(codecs, q, k), rb, maxWrite, fd);
            Linked(Misused(codecs, q, part, rb), peer, codecs)
  {
    ServerExists(codecs, registry, Mixed(codecs, q, k), read, maxWrite, fd);
    MixedOnWire(codecs, q, k, part);
  }

  lemma MixedOnWire(codecs: Codecs, q: Request, k: nat, part: seq<byte>)
    requires Tears(codecs, q, k) && part == Frame(codecs.requests.serialise(HeartbeatRequest(1)))[..k]
    ensures Frame(Mixed(codecs, q, k)) <= Bytes([Part(part)] + [Full(codecs.requests.serialise(q))])
  {
    SplicedOnWire(codecs.requests.serialise(HeartbeatRequest(1)), k, codecs.requests.serialise(q));
  }

  lemma SplicedOnWire(h: seq<byte>, k: nat, b: seq<byte>)
    requires ValidLength(|h|) && ValidLength(|b|) && HEADER_BYTES <= k < |Frame(h)| <= k + |Frame(b)|
    ensures Frame(Spliced(h, k, b)) <= Bytes([Part(Frame(h)[..k])] + [Full(b)])
  {
    TwoPieces(Frame(h)[..k], b);
    SplicedFirst(h, k, b);
  }

  // ---------------------------------------------------------------------------------------
  // A codec with which it does happen
  // ---------------------------------------------------------------------------------------

  const QUESTION: Request := Request("2", "Echo", "Echo", seq(200, _ => 7))

  /** A server that echoes. */
  const ECHO: Registry := map["Echo.Echo" := (payload: seq<byte>) => Reply(payload)]

  /** The theorems need their hypothesis: with lawful codecs, a server that exists and a connection joined to it, there
      is a run in which a call returns a remote result that is not the one owed to it; the connection was used after a
      frame had broken off on it. */
  lemma TornResultNotOwed(fd: int)
    ensures var codecs := PlainCodec.CODECS; var rb := codecs.responses.serialise(Owed(ECHO, PlainCodec.STRAY));
            && codecs.requests.Lawful() && codecs.responses.Lawful() && Tears(codecs, QUESTION, 4)
            && ValidLength(|Mixed(codecs, QUESTION, 4)|) && ValidLength(|rb|)
            && var c := Run(Init, codecs, Prologue(QUESTION, 4, Exchange(Frame(rb))));
               var peer := Server(codecs, ECHO, Mixed(codecs, QUESTION, 4), rb, 4096, fd);
               && |c.calls| == |c.sessions| == 1 && c.sessions[0].torn && Linked(c.sessions[0], peer, codecs)
               && c.calls[0].phase.Returned? && c.calls[0].phase.outcome.Remote?
               && c.calls[0].phase.outcome.session == 0
               && c.calls[0].phase.outcome.result != ResultOf(Owed(peer.Env().registry, c.calls[0].request))
  {
    var codecs := PlainCodec.CODECS;
    PlainCodec.Lawful();
    PlainTears();
    StrayRead();
    TornCallMisanswered(codecs, ECHO, QUESTION, 4, PlainCodec.STRAY, 4096, fd);
    EchoAnswers();
  }

  lemma PlainTears()
    ensures Tears(PlainCodec.CODECS, QUESTION, 4)
  {
    PlainCodec.RequestSize(HeartbeatRequest(1));
    PlainCodec.RequestSize(QUESTION);
    assert |HEARTBEAT_PREFIX + Decimal(1)| == 4;
  }

  /** With only the header of the heartbeat written, the body begins with the request's header. */
  lemma StrayRead()
    requires Tears(PlainCodec.CODECS, QUESTION, 4)
    ensures Reads(PlainCodec.CODECS, ECHO, Mixed(PlainCodec.CODECS, QUESTION, 4), PlainCodec.STRAY, 4096)
  {
    MixedIsStray();
    EchoAnswers();
    PlainCodec.ResponseSize(Owed(ECHO, PlainCodec.STRAY));
  }

  lemma MixedIsStray()
    requires Tears(PlainCodec.CODECS, QUESTION, 4)
    ensures var m := Mixed(PlainCodec.CODECS, QUESTION, 4);
            ValidLength(|m|) && PlainCodec.CODECS.requests.parse(m) == Some(PlainCodec.STRAY)
  {
    var b := PlainCodec.CODECS.requests.serialise(QUESTION);
    PlainCodec.RequestSize(QUESTION);
    SmallHeader(|b|);
    HeaderFirst(PlainCodec.CODECS, QUESTION);
  }

  lemma HeaderFirst(codecs: Codecs, q: Request)
    requires Tears(codecs, q, 4)
    ensures var m := Mixed(codecs, q, 4);
            ValidLength(|m|) && m[0] == EncodeHeader(|codecs.requests.serialise(q)|)[0]
  {
    var h := codecs.requests.serialise(HeartbeatRequest(1));
    assert h[..0] == [];
  }

  lemma SmallHeader(n: nat)
    requires n < 16777216
    ensures EncodeHeader(n)[0] == 0
  {
    assert Digits(n, 4)[0] == Digits(n / 256, 3)[0];
    assert Digits(n / 256, 3)[0] == Digits(n / 256 / 256, 2)[0];
    assert Digits(n / 256 / 256, 2)[0] == Digits(n / 256 / 256 / 256, 1)[0];
    assert n / 256 / 256 / 256 == 0;
  }

  lemma EchoAnswers()
    ensures Owed(ECHO, QUESTION).code == OK
    ensures Owed(ECHO, PlainCodec.STRAY) == Response("2", MethodNotFound, "method not found: Other.Call", [])
  {
    assert MethodKey("Echo", "Echo") == "Echo.Echo";
    assert MethodKey("Other", "Call") == "Other.Call";
    assert "Echo"[0] == 'E' && "Other"[0] == 'O' && HEARTBEAT_SERVICE[0] == '_';
    assert "Other.Call"[0] != "Echo.Echo"[0];
  }
}
