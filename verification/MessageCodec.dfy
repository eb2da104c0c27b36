/** Blocking framing over a socket: `Codec::ReadN`, `WriteN`, `ReadMessage`, `WriteMessage`. */
module MessageCodec {
  import opened Common
  import opened Framing

  /** What the kernel does with one recv or send call. */
  datatype Grant = Transfer(n: nat) | Interrupted | Broken

  datatype RecvResult = Got(bytes: seq<byte>) | EndOfStream | RecvInterrupted | RecvFailed

  datatype SendResult = Sent(n: nat) | SendInterrupted | SendFailed

  /** The peer's byte stream still to be received, and the bytes this side has sent.  The script lists what the
      kernel does with the calls to come; past its end every call fails, as after a receive timeout. */
  class Socket {
    var incoming: seq<byte>
    var outgoing: seq<byte>
    var script: seq<Grant>

    constructor (incoming: seq<byte>, script: seq<Grant>)
      ensures this.incoming == incoming && this.outgoing == [] && this.script == script
    {
      this.incoming, this.outgoing, this.script := incoming, [], script;
    }

    method NextGrant() returns (g: Grant)
      modifies this`script
      ensures |script| < |old(script)| || (script == old(script) == [] && g.Broken?)
    {
      if |script| == 0 { return Broken; }
      g := script[0];
      script := script[1..];
    }

    /** Some, but perhaps not all, of the bytes asked for. */
    method Recv(len: nat) returns (r: RecvResult)
      requires len > 0
      modifies this`incoming, this`script
      ensures r.Got? ==> 1 <= |r.bytes| <= len && r.bytes + incoming == old(incoming)
      ensures !r.Got? ==> incoming == old(incoming)
      ensures |script| < |old(script)| || r.RecvFailed?
    {
      var g := NextGrant();
      match g
      case Broken => r := RecvFailed;
      case Interrupted => r := RecvInterrupted;
      case Transfer(n) =>
        if |incoming| == 0 { return EndOfStream; }
        var k := if n == 0 then 1 else n;
        k := if k > len then len else k;
        k := if k > |incoming| then |incoming| else k;
        r := Got(incoming[..k]);
        incoming := incoming[k..];
    }

    /** Some, but perhaps not all, of the bytes offered. */
    method Send(data: seq<byte>) returns (r: SendResult)
      modifies this`outgoing, this`script
      ensures r.Sent? ==> r.n <= |data| && outgoing == old(outgoing) + data[..r.n]
      ensures !r.Sent? ==> outgoing == old(outgoing)
      ensures |script| < |old(script)| || r.SendFailed?
    {
      var g := NextGrant();
      match g
      case Broken => r := SendFailed;
      case Interrupted => r := SendInterrupted;
      case Transfer(n) =>
        var k := if n > |data| then |data| else n;
        outgoing := outgoing + data[..k];
        r := Sent(k);
    }
  }

  /** Fills the whole of `out` from the stream, however recv cuts it, or fails having filled only a first part. */
  method ReadN(sock: Socket, out: array<byte>) returns (ok: bool, ghost got: nat)
    modifies sock`incoming, sock`script, out
    ensures got <= out.Length && out[..got] + sock.incoming == old(sock.incoming)
    ensures ok <==> got == out.Length
  {
    got := 0;
    var at := 0;
    while at < out.Length
      invariant 0 <= at == got <= out.Length
      invariant out[..at] + sock.incoming == old(sock.incoming)
      decreases |sock.script|
    {
      label before:
      var r := sock.Recv(out.Length - at);
      match r
      case EndOfStream => return false, got;
      case RecvFailed => return false, got;
      case RecvInterrupted =>
      case Got(bytes) =>
        ghost var front := out[..at];
        forall i | 0 <= i < |bytes| { out[at + i] := bytes[i]; }
        assert out[..at] == front;
        assert out[..at + |bytes|] == front + bytes;
        assert front + bytes + sock.incoming == front + (bytes + sock.incoming);
        at := at + |bytes|;
        got := at;
    }
    return true, got;
  }

  /** Sends all of `data`, however send cuts it, or fails having sent only a first part. */
  method WriteN(sock: Socket, data: seq<byte>) returns (ok: bool, ghost sent: nat)
    modifies sock`outgoing, sock`script
    ensures sent <= |data| && sock.outgoing == old(sock.outgoing) + data[..sent]
    ensures ok <==> sent == |data|
  {
    sent := 0;
    var at := 0;
    while at < |data|
      invariant 0 <= at == sent <= |data|
      invariant sock.outgoing == old(sock.outgoing) + data[..at]
      decreases |sock.script|
    {
      var r := sock.Send(data[at..]);
      match r
      case SendFailed => return false, sent;
      case SendInterrupted =>
      case Sent(n) =>
        assert data[..at] + data[at..][..n] == data[..at + n];
        at := at + n;
        sent := at;
    }
    assert data[..|data|] == data;
    return true, sent;
  }

  /** Success puts exactly one frame on the wire; failure leaves a proper first part of it, possibly nothing. */
  method WriteMessage<M(!new)>(sock: Socket, codec: Codec<M>, m: M) returns (ok: bool, ghost sent: nat)
    modifies sock`outgoing, sock`script
    ensures !codec.Fits(m) ==> !ok && sock.outgoing == old(sock.outgoing)
    ensures codec.Fits(m) ==>
              && sent <= |Frame(codec.serialise(m))|
              && sock.outgoing == old(sock.outgoing) + Frame(codec.serialise(m))[..sent]
              && (ok <==> sent == |Frame(codec.serialise(m))|)
  {
    var body := codec.serialise(m);
    if |body| == 0 || |body| > MAX_FRAME_SIZE { return false, 0; }
    ghost var frame := Frame(body);
    ok, sent := WriteN(sock, EncodeHeader(|body|));
    assert frame[..HEADER_BYTES] == EncodeHeader(|body|);
    if !ok {
      assert EncodeHeader(|body|)[..sent] == frame[..sent];
      return;
    }
    ghost var n;
    ok, n := WriteN(sock, body);
    sent := HEADER_BYTES + n;
    assert EncodeHeader(|body|)[..HEADER_BYTES] == EncodeHeader(|body|);
    assert frame[..sent] == EncodeHeader(|body|) + body[..n];
  }

  /** Returns the first message of the stream and consumes exactly its frame.  A failure consumes at most that frame. */
  method ReadMessage<M(!new)>(sock: Socket, codec: Codec<M>) returns (r: Option<M>, ghost used: nat)
    modifies sock`incoming, sock`script
    ensures used <= |old(sock.incoming)| && sock.incoming == old(sock.incoming)[used..]
    ensures r.Some? ==>
              && var p := Parse(old(sock.incoming));
                 |p.bodies| > 0 && codec.parse(p.bodies[0]) == r && used == HEADER_BYTES + |p.bodies[0]|
    ensures r.None? && |Parse(old(sock.incoming)).bodies| > 0 ==>
            used <= HEADER_BYTES + |Parse(old(sock.incoming)).bodies[0]|
  {
    ghost var stream := sock.incoming;
    var header := new byte[HEADER_BYTES];
    var ok;
    ok, used := ReadN(sock, header);
    assert sock.incoming == stream[used..];
    if !ok { return None, used; }
    assert header[..] == stream[..HEADER_BYTES];
    var n := HeaderValue(header[..]);
    assert n == HeaderValue(stream);
    if n == 0 || n > MAX_FRAME_SIZE { return None, used; }
    var body := new byte[n];
    ghost var got;
    ok, got := ReadN(sock, body);
    used := HEADER_BYTES + got;
    assert sock.incoming == stream[used..];
    if !ok { return None, used; }
    assert body[..] == stream[HEADER_BYTES..HEADER_BYTES + n];
    r := codec.parse(body[..]);
  }

  /** What `WriteMessage` puts on the wire, `ReadMessage` takes off it: one frame, the same message. */
  lemma WriteThenRead<M(!new)>(codec: Codec<M>, m: M, tail: seq<byte>)
    requires codec.Lawful() && codec.Fits(m)
    ensures var p := Parse(Frame(codec.serialise(m)) + tail);
            && |p.bodies| > 0 && codec.parse(p.bodies[0]) == Some(m)
            && (Frame(codec.serialise(m)) + tail)[HEADER_BYTES + |p.bodies[0]|..] == tail
  {
    ParseFirstFrame(codec.serialise(m), tail);
  }
}
