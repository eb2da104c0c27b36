/**
  The wire format: a 4-byte big-endian length, then a body of 1 byte to 4 MiB.  `Parse` reads a whole stream at once;
  the theorems say what a peer that reads the stream in pieces gets.
 */
module Framing {
  import opened Common

  newtype byte = x: int | 0 <= x < 256

  const HEADER_BYTES: nat := 4
  const MAX_FRAME_SIZE: nat := 4194304

  predicate ValidLength(n: nat) { 1 <= n <= MAX_FRAME_SIZE }

  /** The big-endian value of a run of bytes. */
  function BigEndian(h: seq<byte>): nat
  {
    if |h| == 0 then 0 else BigEndian(h[..|h| - 1]) * 256 + h[|h| - 1] as nat
  }

  /** The big-endian digits of a number, in `width` bytes. */
  function Digits(n: nat, width: nat): (h: seq<byte>)
    ensures |h| == width
  {
    if width == 0 then [] else Digits(n / 256, width - 1) + [(n % 256) as byte]
  }

  function Limit(width: nat): nat { if width == 0 then 1 else 256 * Limit(width - 1) }

  lemma {:induction false} DigitsRoundTrip(n: nat, width: nat)
    requires n < Limit(width)
    ensures BigEndian(Digits(n, width)) == n
  {
    if width > 0 {
      assert n / 256 < Limit(width - 1);
      DigitsRoundTrip(n / 256, width - 1);
      var h := Digits(n, width);
      assert h[..|h| - 1] == Digits(n / 256, width - 1);
    }
  }

  /** htonl of the length. */
  function EncodeHeader(n: nat): (h: seq<byte>)
    ensures |h| == HEADER_BYTES
  {
    Digits(n, HEADER_BYTES)
  }

  /** ntohl of the first four bytes. */
  function HeaderValue(s: seq<byte>): nat
    requires |s| >= HEADER_BYTES
  {
    BigEndian(s[..HEADER_BYTES])
  }

  lemma HeaderRoundTrip(n: nat, tail: seq<byte>)
    requires ValidLength(n)
    ensures HeaderValue(EncodeHeader(n) + tail) == n
  {
    assert (EncodeHeader(n) + tail)[..HEADER_BYTES] == EncodeHeader(n);
    assert Limit(4) == 256 * Limit(3) && Limit(3) == 256 * Limit(2) && Limit(2) == 256 * Limit(1)
           && Limit(1) == 256 * Limit(0);
    DigitsRoundTrip(n, HEADER_BYTES);
  }

  function Frame(body: seq<byte>): (f: seq<byte>)
    requires ValidLength(|body|)
    ensures |f| == HEADER_BYTES + |body|
  {
    EncodeHeader(|body|) + body
  }

  datatype Head = Short | BadLength | Whole(n: nat)

  /** What the loop over frames finds at the front of the unread bytes. */
  function FirstFrame(s: seq<byte>): (r: Head)
    ensures r.Whole? ==> ValidLength(r.n) && |s| >= HEADER_BYTES + r.n
  {
    if |s| < HEADER_BYTES then Short
    else if !ValidLength(HeaderValue(s)) then BadLength
    else if |s| < HEADER_BYTES + HeaderValue(s) then Short
    else Whole(HeaderValue(s))
  }

  /** The verdict in numbers: the length is the big-endian value of four bytes, and may be 1 to 4194304. */
  lemma FirstFrameIs(s: seq<byte>)
    requires |s| >= 4
    ensures var n := s[0] as nat * 16777216 + s[1] as nat * 65536 + s[2] as nat * 256 + s[3] as nat;
            && (FirstFrame(s) == BadLength <==> n == 0 || n > 4194304)
            && (FirstFrame(s) == Whole(n) <==> 1 <= n <= 4194304 && 4 + n <= |s|)
            && (FirstFrame(s) == Short <==> 1 <= n <= 4194304 && |s| < 4 + n)
  {
    var a, b, c := s[..3], s[..2], s[..1];
    assert s[..4][..3] == a && a[..2] == b && b[..1] == c && c[..0] == [];
    assert BigEndian(c) == BigEndian([]) * 256 + s[0] as nat == s[0] as nat;
    assert BigEndian(b) == BigEndian(c) * 256 + s[1] as nat;
    assert BigEndian(a) == BigEndian(b) * 256 + s[2] as nat;
    assert BigEndian(s[..4]) == BigEndian(a) * 256 + s[3] as nat;
  }

  datatype Parsed = Parsed(bodies: seq<seq<byte>>, rest: seq<byte>, bad: bool)

  /** The complete frames of a stream, the bytes left over, and whether a header with an invalid length stopped it. */
  function Parse(s: seq<byte>): (r: Parsed)
    ensures |r.rest| <= |s|
    decreases |s|
  {
    match FirstFrame(s)
    case Short => Parsed([], s, false)
    case BadLength => Parsed([], s, true)
    case Whole(n) =>
      var r := Parse(s[HEADER_BYTES + n..]);
      Parsed([s[HEADER_BYTES..HEADER_BYTES + n]] + r.bodies, r.rest, r.bad)
  }

  /** A loop that has taken `bodies` off the front of `all` and has `unread` left is on its way to `Parse(all)`. */
  ghost predicate OnTheWay(all: seq<byte>, bodies: seq<seq<byte>>, unread: seq<byte>)
  {
    Parse(all) == Behind(bodies, Parse(unread))
  }

  /** What is read behind some bodies. */
  function Behind(bodies: seq<seq<byte>>, p: Parsed): Parsed { Parsed(bodies + p.bodies, p.rest, p.bad) }

  lemma StartOnTheWay(all: seq<byte>)
    ensures OnTheWay(all, [], all)
  {
    assert [] + Parse(all).bodies == Parse(all).bodies;
  }

  lemma TakeOne(all: seq<byte>, bodies: seq<seq<byte>>, unread: seq<byte>)
    requires OnTheWay(all, bodies, unread) && FirstFrame(unread).Whole?
    ensures var n := FirstFrame(unread).n;
            OnTheWay(all, bodies + [unread[HEADER_BYTES..HEADER_BYTES + n]], unread[HEADER_BYTES + n..])
  {
    var n := FirstFrame(unread).n;
    var x, p := unread[HEADER_BYTES..HEADER_BYTES + n], Parse(unread[HEADER_BYTES + n..]);
    assert Parse(unread) == Parsed([x] + p.bodies, p.rest, p.bad);
    assert bodies + ([x] + p.bodies) == (bodies + [x]) + p.bodies;
  }

  lemma Arrived(all: seq<byte>, bodies: seq<seq<byte>>, unread: seq<byte>)
    requires OnTheWay(all, bodies, unread) && !FirstFrame(unread).Whole?
    ensures Parse(all) == Parsed(bodies, unread, FirstFrame(unread).BadLength?)
  {
    assert bodies + [] == bodies;
  }

  /** One more piece of the stream arrives at a reader that has kept `st`; a bad header ends the reading. */
  function Feed(st: Parsed, piece: seq<byte>): Parsed
  {
    if st.bad then st
    else var r := Parse(st.rest + piece); Parsed(st.bodies + r.bodies, r.rest, r.bad)
  }

  function FeedAll(st: Parsed, pieces: seq<seq<byte>>): Parsed
    decreases |pieces|
  {
    if |pieces| == 0 then st else FeedAll(Feed(st, pieces[0]), pieces[1..])
  }

  const Nothing: Parsed := Parsed([], [], false)

  /** More bytes behind it do not change what a frame or a bad header at the front is. */
  lemma FirstFrameAppend(a: seq<byte>, b: seq<byte>)
    ensures !FirstFrame(a).Short? ==> FirstFrame(a + b) == FirstFrame(a)
  {
    if |a| >= HEADER_BYTES {
      assert (a + b)[..HEADER_BYTES] == a[..HEADER_BYTES];
    }
  }

  /** Parsing is resumable: what follows only matters from the unfinished rest on. */
  lemma {:induction false} ParseAppend(a: seq<byte>, b: seq<byte>)
    ensures var p := Parse(a); var q := Parse(a + b);
            if p.bad then q == Parsed(p.bodies, p.rest + b, true)
            else var r := Parse(p.rest + b); q == Parsed(p.bodies + r.bodies, r.rest, r.bad)
    decreases |a|
  {
    FirstFrameAppend(a, b);
    match FirstFrame(a)
    case Short => assert [] + Parse(a + b).bodies == Parse(a + b).bodies;
    case BadLength =>
    case Whole(n) =>
      var cut := HEADER_BYTES + n;
      WholeAppend(a, b, n);
      ParseAppend(a[cut..], b);
      var p := Parse(a[cut..]);
      if !p.bad { OneMoreBody(a[HEADER_BYTES..cut], p.bodies, Parse(p.rest + b).bodies); }
  }

  lemma WholeAppend(a: seq<byte>, b: seq<byte>, n: nat)
    requires FirstFrame(a) == Whole(n) == FirstFrame(a + b)
    ensures Parse(a + b) == Behind([a[HEADER_BYTES..HEADER_BYTES + n]], Parse(a[HEADER_BYTES + n..] + b))
  {
    var cut := HEADER_BYTES + n;
    assert (a + b)[cut..] == a[cut..] + b;
    assert (a + b)[HEADER_BYTES..cut] == a[HEADER_BYTES..cut];
  }

  lemma OneMoreBody<T>(x: T, a: seq<T>, b: seq<T>)
    ensures [x] + (a + b) == ([x] + a) + b
  {
  }

  /** More of the stream arrives before the loop over frames has finished. */
  lemma MoreOnTheWay(all: seq<byte>, bodies: seq<seq<byte>>, unread: seq<byte>, bytes: seq<byte>)
    requires OnTheWay(all, bodies, unread)
    ensures OnTheWay(all + bytes, bodies, unread + bytes)
  {
    var p := Parse(unread);
    var r := if p.bad then Parsed([], p.rest + bytes, true) else Parse(p.rest + bytes);
    Extended(all, bytes, r);
    Extended(unread, bytes, r);
    BehindBoth(bodies, p, r);
  }

  /** `r` is what the bytes add to what a stream parses to. */
  lemma Extended(s: seq<byte>, bytes: seq<byte>, r: Parsed)
    requires var p := Parse(s); r == if p.bad then Parsed([], p.rest + bytes, true) else Parse(p.rest + bytes)
    ensures Parse(s + bytes) == Behind(Parse(s).bodies, r)
  {
    ParseAppend(s, bytes);
  }

  lemma BehindBoth(bodies: seq<seq<byte>>, p: Parsed, r: Parsed)
    ensures Behind(Behind(bodies, p).bodies, r) == Behind(bodies, Behind(p.bodies, r))
  {
    assert (bodies + p.bodies) + r.bodies == bodies + (p.bodies + r.bodies);
  }

  /** What is kept between reads never contains a complete frame and is short. */
  lemma {:induction false} RestIsUnfinished(s: seq<byte>)
    ensures var p := Parse(s);
            !p.bad ==> |p.rest| <= MAX_FRAME_SIZE + 3 && Parse(p.rest) == Parsed([], p.rest, false)
    decreases |s|
  {
    match FirstFrame(s)
    case Whole(n) => RestIsUnfinished(s[HEADER_BYTES + n..]);
    case _ =>
  }

  lemma {:induction false} FeedAllParses(st: Parsed, seen: seq<byte>, pieces: seq<seq<byte>>)
    requires st == Parse(seen)
    ensures var got := FeedAll(st, pieces); var whole := Parse(seen + Flatten(pieces));
            && got.bodies == whole.bodies && got.bad == whole.bad && (!got.bad ==> got.rest == whole.rest)
    decreases |pieces|
  {
    if |pieces| == 0 {
      assert seen + Flatten(pieces) == seen;
    } else {
      var next := Feed(st, pieces[0]);
      assert seen + Flatten(pieces) == seen + pieces[0] + Flatten(pieces[1..]);
      if st.bad {
        ParseAppend(seen, Flatten(pieces));
        StaysStopped(st, pieces);
      } else {
        ParseAppend(seen, pieces[0]);
        FeedAllParses(next, seen + pieces[0], pieces[1..]);
      }
    }
  }

  lemma {:induction false} StaysStopped(st: Parsed, pieces: seq<seq<byte>>)
    requires st.bad
    ensures FeedAll(st, pieces) == st
    decreases |pieces|
  {
    if |pieces| > 0 { StaysStopped(st, pieces[1..]); }
  }

  /** Chunking independence: cutting a stream into any pieces yields the same bodies and the same bad-header stop as
      parsing it whole, and the same rest while no bad header has been met. */
  lemma ChunkingIndependence(pieces: seq<seq<byte>>)
    ensures var got := FeedAll(Nothing, pieces); var whole := Parse(Flatten(pieces));
            && got.bodies == whole.bodies && got.bad == whole.bad && (!got.bad ==> got.rest == whole.rest)
  {
    assert Parse([]) == Nothing;
    FeedAllParses(Nothing, [], pieces);
    assert [] + Flatten(pieces) == Flatten(pieces);
  }

  // ---------------------------------------------------------------------------------------
  // Round trip
  // ---------------------------------------------------------------------------------------

  predicate Sendable(bodies: seq<seq<byte>>)
  {
    forall i :: 0 <= i < |bodies| ==> ValidLength(|bodies[i]|)
  }

  /** The byte stream of a list of bodies. */
  function Frames(bodies: seq<seq<byte>>): seq<byte>
    requires Sendable(bodies)
  {
    if |bodies| == 0 then [] else Frame(bodies[0]) + Frames(bodies[1..])
  }

  lemma {:induction false} FramesSnoc(bodies: seq<seq<byte>>, body: seq<byte>)
    requires Sendable(bodies) && ValidLength(|body|)
    ensures Sendable(bodies + [body]) && Frames(bodies + [body]) == Frames(bodies) + Frame(body)
    decreases |bodies|
  {
    if |bodies| == 0 {
      assert bodies + [body] == [body];
      FramesOne(body);
    } else {
      assert (bodies + [body])[1..] == bodies[1..] + [body];
      FramesSnoc(bodies[1..], body);
      Associative(Frame(bodies[0]), Frames(bodies[1..]), Frame(body));
    }
  }

  lemma FramesOne(body: seq<byte>)
    requires ValidLength(|body|)
    ensures Frames([body]) == Frame(body)
  {
    assert Frames([body]) == Frame(body) + Frames([body][1..]);
  }

  lemma Associative<T>(a: seq<T>, b: seq<T>, c: seq<T>)
    ensures a + (b + c) == (a + b) + c
  {
  }

  lemma ParseFirstFrame(body: seq<byte>, tail: seq<byte>)
    requires ValidLength(|body|)
    ensures var r := Parse(tail); Parse(Frame(body) + tail) == Parsed([body] + r.bodies, r.rest, r.bad)
  {
    var s := Frame(body) + tail;
    assert s == EncodeHeader(|body|) + (body + tail);
    HeaderRoundTrip(|body|, body + tail);
    assert s[HEADER_BYTES..HEADER_BYTES + |body|] == body;
    assert s[HEADER_BYTES + |body|..] == tail;
  }

  /** A cut-off frame is waited for, never misread. */
  lemma ParseCutFrame(body: seq<byte>, k: nat)
    requires ValidLength(|body|) && k < |Frame(body)|
    ensures Parse(Frame(body)[..k]) == Parsed([], Frame(body)[..k], false)
  {
    var s := Frame(body)[..k];
    if k >= HEADER_BYTES {
      HeaderRoundTrip(|body|, body[..k - HEADER_BYTES]);
      assert s == EncodeHeader(|body|) + body[..k - HEADER_BYTES];
    }
  }

  /** The body made of the beginning of a frame that broke off and that of the next frame. */
  function Spliced(torn: seq<byte>, k: nat, next: seq<byte>): (mixed: seq<byte>)
    requires ValidLength(|torn|) && ValidLength(|next|) && HEADER_BYTES <= k < |Frame(torn)| <= k + |Frame(next)|
    ensures |mixed| == |torn|
  {
    torn[..k - HEADER_BYTES] + Frame(next)[..|Frame(torn)| - k]
  }

  lemma SplicedFirst(torn: seq<byte>, k: nat, next: seq<byte>)
    requires ValidLength(|torn|) && ValidLength(|next|) && HEADER_BYTES <= k < |Frame(torn)| <= k + |Frame(next)|
    ensures Frame(torn)[..k] + Frame(next) == Frame(Spliced(torn, k, next)) + Frame(next)[|Frame(torn)| - k..]
  {
  }

  /** A frame that breaks off on a connection that stays in use takes the beginning of the next frame with it: the
      reader gets a body nobody sent. */
  lemma TornFrameMisread(torn: seq<byte>, k: nat, next: seq<byte>)
    requires ValidLength(|torn|) && ValidLength(|next|) && HEADER_BYTES <= k < |Frame(torn)| <= k + |Frame(next)|
    ensures var got := Parse(Frame(torn)[..k] + Frame(next)).bodies;
            |got| > 0 && got[0] == torn[..k - HEADER_BYTES] + Frame(next)[..|Frame(torn)| - k]
  {
    SplicedFirst(torn, k, next);
    ParseFirstFrame(Spliced(torn, k, next), Frame(next)[|Frame(torn)| - k..]);
  }

  /** Whatever part of the stream has arrived, the bodies read so far are a prefix, in order, of the bodies sent, and
      the stream never looks bad; with everything arrived, they are all of them. */
  lemma {:induction false} PrefixRoundTrip(bodies: seq<seq<byte>>, k: nat)
    requires Sendable(bodies) && k <= |Frames(bodies)|
    ensures var p := Parse(Frames(bodies)[..k]);
            && !p.bad && p.bodies <= bodies
            && (k == |Frames(bodies)| ==> p.bodies == bodies && p.rest == [])
    decreases |bodies|
  {
    if |bodies| > 0 {
      var f, rest := Frame(bodies[0]), Frames(bodies[1..]);
      if k < |f| {
        assert (f + rest)[..k] == f[..k];
        ParseCutFrame(bodies[0], k);
      } else {
        PrefixRoundTrip(bodies[1..], k - |f|);
        FrameAndPart(bodies[0], rest, k);
        OneMoreInFront(bodies, Parse(rest[..k - |f|]).bodies);
      }
    }
  }

  lemma OneMoreInFront<T>(all: seq<T>, some: seq<T>)
    requires |all| > 0 && some <= all[1..]
    ensures [all[0]] + some <= all && (some == all[1..] ==> [all[0]] + some == all)
  {
    assert all == [all[0]] + all[1..];
  }

  /** A whole frame and a part of what follows it. */
  lemma FrameAndPart(body: seq<byte>, rest: seq<byte>, k: nat)
    requires ValidLength(|body|) && |Frame(body)| <= k <= |Frame(body) + rest|
    ensures var r := Parse(rest[..k - |Frame(body)|]);
            Parse((Frame(body) + rest)[..k]) == Behind([body], r)
  {
    var f := Frame(body);
    assert (f + rest)[..k] == f + rest[..k - |f|];
    ParseFirstFrame(body, rest[..k - |f|]);
  }

  // ---------------------------------------------------------------------------------------
  // Messages
  // ---------------------------------------------------------------------------------------

  /** Protobuf, uninterpreted: a serialiser and a parser. */
  datatype Codec<!M(!new)> = Codec(serialise: M -> seq<byte>, parse: seq<byte> -> Option<M>)
  {
    ghost predicate Lawful() { forall m: M :: parse(serialise(m)) == Some(m) }

    /** Neither empty nor beyond the frame limit once serialised. */
    predicate Fits(m: M) { ValidLength(|serialise(m)|) }
  }

  function Bodies<M(!new)>(codec: Codec<M>, ms: seq<M>): (r: seq<seq<byte>>)
    ensures |r| == |ms|
  {
    seq(|ms|, i requires 0 <= i < |ms| => codec.serialise(ms[i]))
  }

  /** The bodies of a stream as messages; an unparsable body is `None`. */
  function Messages<M(!new)>(codec: Codec<M>, bodies: seq<seq<byte>>): (r: seq<Option<M>>)
    ensures |r| == |bodies|
  {
    seq(|bodies|, i requires 0 <= i < |bodies| => codec.parse(bodies[i]))
  }

  /** Wire round trip: the sender queued `ms`, some first part of its byte stream has arrived, cut in any pieces.  The
      receiver has decoded a prefix of `ms`, in order, and all of `ms` once every byte is there. */
  lemma WireRoundTrip<M(!new)>(codec: Codec<M>, ms: seq<M>, pieces: seq<seq<byte>>)
    requires codec.Lawful() && forall i :: 0 <= i < |ms| ==> codec.Fits(ms[i])
    requires Sendable(Bodies(codec, ms)) && Flatten(pieces) <= Frames(Bodies(codec, ms))
    ensures var got := FeedAll(Nothing, pieces);
            && !got.bad && |got.bodies| <= |ms|
            && (forall i :: 0 <= i < |got.bodies| ==> Messages(codec, got.bodies)[i] == Some(ms[i]))
            && (Flatten(pieces) == Frames(Bodies(codec, ms)) ==> |got.bodies| == |ms| && got.rest == [])
  {
    var stream := Frames(Bodies(codec, ms));
    var k := |Flatten(pieces)|;
    assert Flatten(pieces) == stream[..k];
    ChunkingIndependence(pieces);
    PrefixRoundTrip(Bodies(codec, ms), k);
    var got := FeedAll(Nothing, pieces);
    forall i | 0 <= i < |got.bodies| ensures Messages(codec, got.bodies)[i] == Some(ms[i]) {
      assert got.bodies[i] == Bodies(codec, ms)[i] == codec.serialise(ms[i]);
    }
  }
}
