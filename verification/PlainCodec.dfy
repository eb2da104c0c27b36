/** A codec that undoes what it does: texts are written character by character, and what does not begin like a request
    is read as one stray request. */
module PlainCodec {
  import opened Common
  import opened Framing
  import opened Rpc
  import ClientCalls

  const TAG: byte := 9

  const STRAY: Request := Request("2", "Other", "Call", [])

  const CODECS: ClientCalls.Codecs :=
    ClientCalls.Codecs(Codec((q: Request) => PutRequest(q), (b: seq<byte>) => TakeRequest(b)),
                       Codec((r: Response) => PutResponse(r), (b: seq<byte>) => TakeResponse(b)))

  // ---------------------------------------------------------------------------------------
  // Texts
  // ---------------------------------------------------------------------------------------

  function PutText(s: string): (b: seq<byte>)
    ensures |b| == 5 * |s| + 1
  {
    if |s| == 0 then [0] else [1] + Digits(s[0] as nat, 4) + PutText(s[1..])
  }

  /** A text at the front, and what follows it. */
  function TakeText(b: seq<byte>): Option<(string, seq<byte>)>
  {
    if |b| == 0 then None
    else if b[0] == 0 then Some(("", b[1..]))
    else if |b| < 5 then None
    else
      var n := BigEndian(b[1..5]);
      var rest := TakeText(b[5..]);
      if rest.Some? && IsChar(n) then Some(([n as char] + rest.value.0, rest.value.1)) else None
  }

  predicate IsChar(n: nat) { n < 0xD800 || 0xE000 <= n < 0x11_0000 }

  lemma {:induction false} TextRoundTrip(s: string, rest: seq<byte>)
    ensures TakeText(PutText(s) + rest) == Some((s, rest))
  {
    if |s| == 0 {
      assert ([0] + rest)[1..] == rest;
    } else {
      CharacterFirst(s[0], PutText(s[1..]) + rest);
      assert PutText(s) + rest == [1] + Digits(s[0] as nat, 4) + (PutText(s[1..]) + rest);
      TextRoundTrip(s[1..], rest);
      assert s == [s[0]] + s[1..];
    }
  }

  lemma CharacterFirst(c: char, rest: seq<byte>)
    ensures var b := [1] + Digits(c as nat, 4) + rest;
            |b| >= 5 && b[0] == 1 && BigEndian(b[1..5]) == c as nat && b[5..] == rest && IsChar(c as nat)
  {
    var b := [1] + Digits(c as nat, 4) + rest;
    assert b[1..5] == Digits(c as nat, 4);
    assert Limit(4) == 256 * Limit(3) && Limit(3) == 256 * Limit(2) && Limit(2) == 256 * Limit(1) && Limit(1) == 256;
    DigitsRoundTrip(c as nat, 4);
  }

  // ---------------------------------------------------------------------------------------
  // Messages
  // ---------------------------------------------------------------------------------------

  function PutRequest(q: Request): seq<byte>
  {
    [TAG] + (PutText(q.id) + (PutText(q.service) + (PutText(q.operation) + q.payload)))
  }

  function TakeRequest(b: seq<byte>): Option<Request>
  {
    if |b| == 0 then None
    else if b[0] != TAG then Some(STRAY)
    else
      var id := TakeText(b[1..]);
      if id.None? then None else
      var service := TakeText(id.value.1);
      if service.None? then None else
      var operation := TakeText(service.value.1);
      if operation.None? then None
      else Some(Request(id.value.0, service.value.0, operation.value.0, operation.value.1))
  }

  function PutCode(c: ErrorCode): byte
  {
    match c case OK => 0 case MethodNotFound => 1 case ParseError => 2 case InternalError => 3
  }

  function TakeCode(b: byte): ErrorCode
  {
    if b == 0 then OK else if b == 1 then MethodNotFound else if b == 2 then ParseError else InternalError
  }

  function PutResponse(r: Response): seq<byte>
  {
    [PutCode(r.code)] + (PutText(r.id) + (PutText(r.message) + r.payload))
  }

  function TakeResponse(b: seq<byte>): Option<Response>
  {
    if |b| == 0 then None
    else
      var id := TakeText(b[1..]);
      if id.None? then None else
      var message := TakeText(id.value.1);
      if message.None? then None else Some(Response(id.value.0, TakeCode(b[0]), message.value.0, message.value.1))
  }

  lemma RequestRoundTrip(q: Request)
    ensures TakeRequest(PutRequest(q)) == Some(q)
  {
    var last := PutText(q.operation) + q.payload;
    assert PutRequest(q)[1..] == PutText(q.id) + (PutText(q.service) + last);
    TextRoundTrip(q.id, PutText(q.service) + last);
    TextRoundTrip(q.service, last);
    TextRoundTrip(q.operation, q.payload);
  }

  lemma ResponseRoundTrip(r: Response)
    ensures TakeResponse(PutResponse(r)) == Some(r)
  {
    assert PutResponse(r)[1..] == PutText(r.id) + (PutText(r.message) + r.payload);
    TextRoundTrip(r.id, PutText(r.message) + r.payload);
    TextRoundTrip(r.message, r.payload);
  }

  lemma Lawful()
    ensures CODECS.requests.Lawful() && CODECS.responses.Lawful()
  {
    forall q: Request ensures TakeRequest(PutRequest(q)) == Some(q) { RequestRoundTrip(q); }
    forall r: Response ensures TakeResponse(PutResponse(r)) == Some(r) { ResponseRoundTrip(r); }
  }

  lemma RequestSize(q: Request)
    ensures |CODECS.requests.serialise(q)| == 5 * (|q.id| + |q.service| + |q.operation|) + |q.payload| + 4
  {
  }

  lemma ResponseSize(r: Response)
    ensures |CODECS.responses.serialise(r)| == 5 * (|r.id| + |r.message|) + |r.payload| + 3
  {
  }
}
