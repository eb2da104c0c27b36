/** The client's dispatcher reading responses: the loop over the frames in its buffer, and the end of the stream, which
    is looked at only after the frames. */
module ClientFrames {
  import opened Common
  import opened Framing
  import opened Rpc
  import P = PendingCalls
  import opened ClientCalls
  import PendingCallsCode

  // ---------------------------------------------------------------------------------------
  // The loop as a function
  // ---------------------------------------------------------------------------------------

  /** How many of the bodies parse before one does not. */
  function Readable(codec: Codec<Response>, bodies: seq<seq<byte>>): (n: nat)
    ensures n <= |bodies|
  {
    if |bodies| == 0 then 0
    else
      var n := Readable(codec, bodies[..|bodies| - 1]);
      if n == |bodies| - 1 && codec.parse(bodies[n]).Some? then n + 1 else n
  }

  /** The responses in the bodies, handled in order. */
  function HandleBodies(p: Pending, s: nat, codec: Codec<Response>, bodies: seq<seq<byte>>): Pending
  {
    if |bodies| == 0 then p
    else
      var q := HandleBodies(p, s, codec, bodies[..|bodies| - 1]);
      match codec.parse(bodies[|bodies| - 1])
      case None => q
      case Some(r) => OneResponse(q, s, r)
  }

  lemma HandleSnoc(p: Pending, s: nat, codec: Codec<Response>, bodies: seq<seq<byte>>, body: seq<byte>, r: Response)
    requires codec.parse(body) == Some(r) && Readable(codec, bodies) == |bodies|
    ensures HandleBodies(p, s, codec, bodies + [body]) == OneResponse(HandleBodies(p, s, codec, bodies), s, r)
    ensures Readable(codec, bodies + [body]) == |bodies| + 1
  {
    assert (bodies + [body])[..|bodies|] == bodies;
  }

  lemma {:induction false} ReadableAppend(codec: Codec<Response>, a: seq<seq<byte>>, b: seq<seq<byte>>)
    requires Readable(codec, a) < |a| || (|b| > 0 && codec.parse(b[0]).None?)
    ensures Readable(codec, a + b) == Readable(codec, a)
    decreases |b|
  {
    if |b| == 0 {
      assert a + b == a;
    } else {
      var c := b[..|b| - 1];
      assert (a + b)[..|a + b| - 1] == a + c;
      if |c| == 0 {
        assert a + c == a;
      } else {
        ReadableAppend(codec, a, c);
      }
    }
  }

  // ---------------------------------------------------------------------------------------
  // The loop
  // ---------------------------------------------------------------------------------------

  const BAD_LENGTH: string := "invalid response frame length"

  /** `HandleReadableFrames`: every complete frame of the buffer is handled in order and the unfinished rest is kept; at
      a bad length or an unparsable body every call still undone is failed and the dispatcher stops. */
  method HandleReadableFrames(buffer: seq<byte>, table: PendingCallsCode.PendingTable<Outcome>, s: nat,
                              codec: Codec<Response>)
    returns (rest: seq<byte>, ok: bool, ghost ids: seq<string>)
    requires table.Valid()
    modifies table
    ensures table.Valid()
    ensures var all := Parse(buffer); var n := Readable(codec, all.bodies);
            var handled := HandleBodies(old(table.View()), s, codec, all.bodies[..n]);
            if n < |all.bodies| then !ok && table.View() == P.FailEach(handled, ids, None, Failed(Unparsable))
            else if all.bad then !ok && table.View() == P.FailEach(handled, ids, None, Failure(BAD_LENGTH))
            else ok && table.View() == handled && rest == all.rest && |rest| <= MAX_FRAME_SIZE + 3
    ensures !ok ==> forall id :: id in table.View().table ==> id in ids
  {
    var offset := 0;
    ghost var bodies: seq<seq<byte>> := [];
    ids := [];
    StartOnTheWay(buffer);
    assert buffer[0..] == buffer;
    var head := FirstFrame(buffer);
    while head.Whole?
      invariant table.Valid()
      invariant offset <= |buffer| && head == FirstFrame(buffer[offset..]) && OnTheWay(buffer, bodies, buffer[offset..])
      invariant Readable(codec, bodies) == |bodies| && table.View() == HandleBodies(old(table.View()), s, codec, bodies)
      decreases |buffer| - offset
    {
      var body, next := Extract(buffer, offset, head.n, bodies);
      var parsed := codec.parse(body);
      if parsed.None? {
        Unreadable(buffer, offset, codec, bodies, body);
        ids := FailEverything(table, Unparsable);
        return buffer, false, ids;
      }
      HandleSnoc(old(table.View()), s, codec, bodies, body, parsed.value);
      HandleResponse(table, s, parsed.value);
      bodies := bodies + [body];
      offset := next;
      head := FirstFrame(buffer[offset..]);
    }
    Arrived(buffer, bodies, buffer[offset..]);
    RestIsUnfinished(buffer);
    assert bodies[..|bodies|] == bodies;
    if head.BadLength? {
      ids := FailEverything(table, Because(BAD_LENGTH));
      return buffer, false, ids;
    }
    return buffer[offset..], true, ids;
  }

  /** The body at the offset, and the offset behind it. */
  method Extract(buffer: seq<byte>, offset: nat, n: nat, ghost bodies: seq<seq<byte>>)
      returns (body: seq<byte>, next: nat)
    requires offset <= |buffer| && FirstFrame(buffer[offset..]) == Whole(n)
             && OnTheWay(buffer, bodies, buffer[offset..])
    ensures offset < next <= |buffer| && OnTheWay(buffer, bodies + [body], buffer[next..])
    ensures Parse(buffer[offset..]).bodies != [] && Parse(buffer[offset..]).bodies[0] == body
  {
    ghost var unread := buffer[offset..];
    TakeOne(buffer, bodies, unread);
    next := offset + HEADER_BYTES + n;
    body := buffer[offset + HEADER_BYTES..next];
    assert body == unread[HEADER_BYTES..HEADER_BYTES + n] && buffer[next..] == unread[HEADER_BYTES + n..];
  }

  /** Stopping at a body that does not parse: the ones before it are the readable ones. */
  lemma Unreadable(buffer: seq<byte>, offset: nat, codec: Codec<Response>, bodies: seq<seq<byte>>, body: seq<byte>)
    requires offset <= |buffer| && OnTheWay(buffer, bodies, buffer[offset..]) && Readable(codec, bodies) == |bodies|
    requires Parse(buffer[offset..]).bodies != [] && Parse(buffer[offset..]).bodies[0] == body
             && codec.parse(body).None?
    ensures var all := Parse(buffer);
            Readable(codec, all.bodies) == |bodies| < |all.bodies| && all.bodies[..|bodies|] == bodies
  {
    ReadableAppend(codec, bodies, Parse(buffer[offset..]).bodies);
  }

  method HandleResponse(table: PendingCallsCode.PendingTable<Outcome>, s: nat, r: Response)
    requires table.Valid()
    modifies table
    ensures table.Valid() && table.View() == OneResponse(old(table.View()), s, r)
  {
    if !(HEARTBEAT_PREFIX <= r.id) {
      var known, waiters := table.CompleteCall(r.id, FromServer(s, r));
    }
  }

  method FailEverything(table: PendingCallsCode.PendingTable<Outcome>, cause: Cause) returns (ghost ids: seq<string>)
    requires table.Valid()
    modifies table
    ensures table.Valid() && table.View() == P.FailEach(old(table.View()), ids, None, Failed(cause))
    ensures forall id :: id in table.View().table ==> id in ids
  {
    var waiters;
    ghost var before := table.View();
    waiters, ids := table.FailCalls(None, Failed(cause));
    P.FailEachKeys(before, ids, None, Failed(cause));
  }

  // ---------------------------------------------------------------------------------------
  // The end of the stream
  // ---------------------------------------------------------------------------------------

  /** How the receive loop of the dispatcher ends: nothing more for now, the peer closed, or an error that is not
      temporary. */
  datatype ReadEnd = Drained | PeerClosed | ReadFailed(reason: string)

  const PEER_CLOSED: string := "dispatcher stopped: peer closed connection"

  /** The receive loop. */
  method ReceiveAll(buffer: seq<byte>, pieces: seq<seq<byte>>) returns (all: seq<byte>)
    ensures all == buffer + Flatten(pieces)
  {
    all := buffer;
    for i := 0 to |pieces|
      invariant all == buffer + Flatten(pieces[..i])
    {
      FlattenSnoc(pieces[..i], pieces[i]);
      assert pieces[..i + 1] == pieces[..i] + [pieces[i]];
      all := all + pieces[i];
    }
    assert pieces[..|pieces|] == pieces;
  }

  /** The readable branch of `DispatcherLoop`: receive what there is, handle the frames, and only then look at the end
      of the stream. */
  method OnReadable(buffer: seq<byte>, pieces: seq<seq<byte>>, end: ReadEnd,
                    table: PendingCallsCode.PendingTable<Outcome>, s: nat,
                    codec: Codec<Response>)
    returns (rest: seq<byte>, running: bool, ghost ids: seq<string>)
    requires table.Valid()
    modifies table
    ensures table.Valid()
    ensures var all := Parse(buffer + Flatten(pieces));
            var n := Readable(codec, all.bodies);
            var handled := HandleBodies(old(table.View()), s, codec, all.bodies[..n]);
            var whole := !all.bad && n == |all.bodies|;
            if end.ReadFailed? then
              !running && table.View()
                  == P.FailEach(old(table.View()), ids, None, Failure("dispatcher stopped: " + end.reason))
            else if end == Drained && whole then running && table.View() == handled && rest == all.rest
            else
              && !running
              && table.View() == P.FailEach(handled, ids, None, Failed(if n < |all.bodies| then Unparsable
                                                                       else if all.bad then Because(BAD_LENGTH)
                                                                       else Because(PEER_CLOSED)))
    ensures !running ==> forall id :: id in table.View().table ==> id in ids
  {
    rest := ReceiveAll(buffer, pieces);
    if end.ReadFailed? {
      ids := FailEverything(table, Because("dispatcher stopped: " + end.reason));
      return rest, false, ids;
    }
    ghost var all := Parse(rest);
    var ok;
    rest, ok, ids := HandleReadableFrames(rest, table, s, codec);
    assert all.bodies[..|all.bodies|] == all.bodies;
    if !ok || end == Drained { return rest, ok, ids; }
    ids := FailEverything(table, Because(PEER_CLOSED));
    return rest, false, ids;
  }
}
