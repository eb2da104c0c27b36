/** The connection's read buffer: two cursors over a byte vector, compacted or grown only when its tail is too short. */
module ReadBuffer {
  import opened Framing

  class Buffer {
    var data: array<byte>
    var readIndex: nat
    var writeIndex: nat

    /** The unread bytes, which is all a user of the buffer can see. */
    ghost var unread: seq<byte>

    ghost predicate Valid()
      reads this, data
    {
      readIndex <= writeIndex <= data.Length && unread == data[readIndex..writeIndex]
    }

    constructor (capacity: nat)
      ensures Valid() && unread == [] && fresh(data)
    {
      data := new byte[capacity](_ => 0);
      readIndex, writeIndex, unread := 0, 0, [];
    }

    method ReadableBytes() returns (n: nat)
      requires Valid()
      ensures n == |unread|
    {
      n := writeIndex - readIndex;
    }

    /** `peek()`: a copy of the first n unread bytes. */
    method Peek(n: nat) returns (bytes: seq<byte>)
      requires Valid() && n <= |unread|
      ensures bytes == unread[..n]
    {
      bytes := data[readIndex..readIndex + n];
    }

    /** Consumes n bytes by moving a cursor; an emptied buffer starts over at the front. */
    method Retrieve(n: nat)
      requires Valid() && n <= |unread|
      modifies this`readIndex, this`writeIndex, this`unread
      ensures Valid() && unread == old(unread)[n..]
      ensures unread == [] ==> readIndex == writeIndex == 0
    {
      readIndex := readIndex + n;
      unread := unread[n..];
      if readIndex == writeIndex {
        readIndex, writeIndex := 0, 0;
      }
    }

    /** memmove of the unread bytes to the front. */
    method Compact()
      requires Valid()
      modifies this`readIndex, this`writeIndex, data
      ensures Valid() && readIndex == 0 && unread == old(unread)
    {
      if readIndex == 0 { return; }
      var readable := writeIndex - readIndex;
      if readable > 0 {
        var from := readIndex;
        forall i | 0 <= i < readable { data[i] := data[from + i]; }
      }
      writeIndex := readable;
      readIndex := 0;
      assert data[..readable] == old(data[readIndex..writeIndex]);
    }

    /** Makes room for `len` more bytes, losing none: by compaction if that is enough, otherwise by growing. */
    method EnsureWritable(len: nat)
      requires Valid()
      modifies this, data
      ensures Valid() && unread == old(unread) && data.Length - writeIndex >= len
      ensures data == old(data) || fresh(data)
      ensures data.Length == if |old(unread)| + len <= old(data.Length) then old(data.Length) else |old(unread)| + len
    {
      if data.Length - writeIndex >= len { return; }
      Compact();
      if data.Length - writeIndex < len { Grow(writeIndex + len); }
    }

    /** A larger array with the same unread bytes. */
    method Grow(size: nat)
      requires Valid() && readIndex == 0 && data.Length <= size
      modifies this`data
      ensures Valid() && fresh(data) && data.Length == size
    {
      var small := data;
      var grown := new byte[size](i requires 0 <= i reads small => if i < small.Length then small[i] else 0);
      assert grown[..writeIndex] == small[..writeIndex];
      data := grown;
    }

    method Append(bytes: seq<byte>)
      requires Valid()
      modifies this, data
      ensures Valid() && unread == old(unread) + bytes
      ensures data == old(data) || fresh(data)
    {
      EnsureWritable(|bytes|);
      var at := writeIndex;
      forall i | 0 <= i < |bytes| { data[at + i] := bytes[i]; }
      writeIndex := at + |bytes|;
      assert data[readIndex..at] == unread;
      assert data[at..writeIndex] == bytes by {
        assert forall i :: 0 <= i < |bytes| ==> data[at + i] == bytes[i];
      }
      assert data[readIndex..writeIndex] == data[readIndex..at] + data[at..writeIndex];
      unread := unread + bytes;
    }
  }

  /** The frame loop of `TryParseRequests` and of the client's `HandleReadableFrames`: it takes every complete frame out
      of the buffer and leaves the unfinished rest, exactly as parsing the unread bytes as a whole would. */
  method TakeFrames(buffer: Buffer) returns (ok: bool, bodies: seq<seq<byte>>)
    requires buffer.Valid()
    modifies buffer`readIndex, buffer`writeIndex, buffer`unread
    ensures buffer.Valid()
    ensures Parsed(bodies, buffer.unread, !ok) == Parse(old(buffer.unread))
    ensures ok ==> |buffer.unread| <= MAX_FRAME_SIZE + 3
  {
    bodies := [];
    ghost var all := buffer.unread;
    StartOnTheWay(all);
    var head := LookAhead(buffer);
    while head.Whole?
      invariant buffer.Valid() && buffer.data == old(buffer.data)
      invariant OnTheWay(all, bodies, buffer.unread) && head == FirstFrame(buffer.unread)
      decreases |buffer.unread|
    {
      bodies := TakeNext(buffer, head.n, all, bodies);
      head := LookAhead(buffer);
    }
    Arrived(all, bodies, buffer.unread);
    RestIsUnfinished(all);
    ok := head.Short?;
  }

  /** One round of the loop. */
  method TakeNext(buffer: Buffer, n: nat, ghost all: seq<byte>, bodies: seq<seq<byte>>) returns (more: seq<seq<byte>>)
    requires buffer.Valid() && FirstFrame(buffer.unread) == Whole(n)
    requires OnTheWay(all, bodies, buffer.unread)
    modifies buffer`readIndex, buffer`writeIndex, buffer`unread
    ensures buffer.Valid() && |buffer.unread| < |old(buffer.unread)|
    ensures OnTheWay(all, more, buffer.unread)
  {
    TakeOne(all, bodies, buffer.unread);
    var body := TakeBody(buffer, n);
    more := bodies + [body];
  }

  /** Copies the body out and consumes header and body. */
  method TakeBody(buffer: Buffer, n: nat) returns (body: seq<byte>)
    requires buffer.Valid() && HEADER_BYTES + n <= |buffer.unread|
    modifies buffer`readIndex, buffer`writeIndex, buffer`unread
    ensures buffer.Valid() && |buffer.unread| < |old(buffer.unread)|
    ensures body == old(buffer.unread)[HEADER_BYTES..HEADER_BYTES + n]
    ensures buffer.unread == old(buffer.unread)[HEADER_BYTES + n..]
  {
    var frame := buffer.Peek(HEADER_BYTES + n);
    body := frame[HEADER_BYTES..];
    buffer.Retrieve(HEADER_BYTES + n);
  }

  /** `DecodeFrameHeader` at the front of the unread bytes, and the check that the body has arrived. */
  method LookAhead(buffer: Buffer) returns (head: Head)
    requires buffer.Valid()
    ensures head == FirstFrame(buffer.unread)
  {
    var readable := buffer.ReadableBytes();
    if readable < HEADER_BYTES { return Short; }
    var header := buffer.Peek(HEADER_BYTES);
    var n := BigEndian(header);
    if n == 0 || n > MAX_FRAME_SIZE { return BadLength; }
    if readable < HEADER_BYTES + n { return Short; }
    return Whole(n);
  }

  /** The two-cursor buffer refines the plain stream reader: one `Append` followed by the frame loop is one `Feed`. */
  method ReadPiece(buffer: Buffer, piece: seq<byte>, ghost before: Parsed) returns (ghost after: Parsed)
    requires buffer.Valid() && buffer.unread == before.rest && !before.bad
    modifies buffer, buffer.data
    ensures buffer.Valid() && after == Feed(before, piece) && buffer.unread == after.rest
  {
    buffer.Append(piece);
    var ok, bodies := TakeFrames(buffer);
    after := Parsed(before.bodies + bodies, buffer.unread, !ok);
  }
}
