/** Length-prefixed frames: a 32-bit big-endian payload size, then the payload. */
module Framing {
  import opened Protocol

  const MAX_FRAME_SIZE := 0x1_0000

  const HEADER_SIZE := 4

  // ----- The 32-bit header -----

  /** htonl: the most significant byte first. */
  function Header(size: nat): Bytes
    requires size < 0x1_0000_0000
  {
    [size / 0x100_0000, size / 0x1_0000 % 0x100, size / 0x100 % 0x100, size % 0x100]
  }

  /** ntohl of the first four bytes. */
  function SizeOf(header: Bytes): nat
    requires |header| >= HEADER_SIZE
  {
    (header[0] as int) * 0x100_0000 + (header[1] as int) * 0x1_0000 + (header[2] as int) * 0x100 + header[3]
  }

  /** The value of a byte string, most significant byte first. */
  function BigEndian(bytes: Bytes): nat {
    if bytes == [] then 0 else BigEndian(bytes[..|bytes| - 1]) * 256 + bytes[|bytes| - 1]
  }

  lemma BigEndianOfFour(bytes: Bytes)
    requires |bytes| == 4
    ensures BigEndian(bytes) == SizeOf(bytes)
  {
    assert bytes[..3][..2] == bytes[..2];
    assert bytes[..2][..1] == bytes[..1];
    assert bytes[..1][..0] == [];
    assert BigEndian(bytes[..1]) == bytes[0] as int;
    assert BigEndian(bytes[..2]) == BigEndian(bytes[..1]) * 256 + bytes[1];
    assert BigEndian(bytes[..3]) == BigEndian(bytes[..2]) * 256 + bytes[2];
  }

  /** Header and size are the big-endian reading of each other. */
  lemma HeadersAreBigEndian(size: nat, header: Bytes)
    requires size < 0x1_0000_0000 && |header| == 4
    ensures |Header(size)| == 4 && BigEndian(Header(size)) == size
    ensures SizeOf(header) == BigEndian(header)
    ensures Header(size) == header <==> BigEndian(header) == size
  {
    BigEndianOfFour(Header(size));
    BigEndianOfFour(header);
    HeaderRoundTrip(size);
    SizeRoundTrip(header);
  }

  lemma HeaderRoundTrip(size: nat)
    requires size < 0x1_0000_0000
    ensures SizeOf(Header(size)) == size
  {
    var high, low := size / 0x1_0000, size % 0x1_0000;
    assert size / 0x100_0000 == high / 0x100;
    assert size / 0x100 % 0x100 == low / 0x100;
    assert size % 0x100 == low % 0x100;
  }

  lemma SizeRoundTrip(header: Bytes)
    requires |header| == HEADER_SIZE
    ensures SizeOf(header) < 0x1_0000_0000
    ensures Header(SizeOf(header)) == header
  {
    var h0: nat, h1: nat, h2: nat, h3: nat := header[0], header[1], header[2], header[3];
    var size := SizeOf(header);
    QuotientIs(size, 0x100_0000, h0, h1 * 0x1_0000 + h2 * 0x100 + h3);
    QuotientIs(size, 0x1_0000, h0 * 0x100 + h1, h2 * 0x100 + h3);
    QuotientIs(size, 0x100, h0 * 0x1_0000 + h1 * 0x100 + h2, h3);
    QuotientIs(h0 * 0x100 + h1, 0x100, h0, h1);
    QuotientIs(h0 * 0x1_0000 + h1 * 0x100 + h2, 0x100, h0 * 0x100 + h1, h2);
  }

  // ----- Writing -----

  predicate Sendable(payload: Bytes) {
    1 <= |payload| <= MAX_FRAME_SIZE
  }

  function FrameOf(payload: Bytes): Bytes
    requires |payload| <= MAX_FRAME_SIZE
  {
    Header(|payload|) + payload
  }

  const TOO_LARGE := Error(ProtocolViolation, "protobuf frame too large")

  /** encodeFrame: too large a payload is refused, an empty one is not. */
  method EncodeFrame(payload: Bytes) returns (frame: Result<Bytes>)
    ensures |payload| > 65536 ==> frame == Err(TOO_LARGE)
    ensures |payload| <= 65536 ==> frame == Ok(FrameOf(payload))
  {
    if |payload| > MAX_FRAME_SIZE {
      return Err(TOO_LARGE);
    }
    var buffer := new Byte[HEADER_SIZE + |payload|];
    var size := |payload|;
    buffer[0], buffer[1] := size / 0x100_0000, size / 0x1_0000 % 0x100;
    buffer[2], buffer[3] := size / 0x100 % 0x100, size % 0x100;
    for i := 0 to |payload|
      invariant buffer[..HEADER_SIZE + i] == Header(|payload|) + payload[..i]
    {
      buffer[HEADER_SIZE + i] := payload[i];
    }
    assert payload[..|payload|] == payload;
    assert buffer[..] == FrameOf(payload);
    frame := Ok(buffer[..]);
  }

  /** write_envelope: the transcriber refuses exactly the payloads no reader would accept. */
  method WriteEnvelope(payload: Bytes) returns (written: Option<Bytes>)
    ensures written.Some? <==> 1 <= |payload| <= 65536
    ensures written.Some? ==> Deframe(written.value) == Deframed([payload], EndOfStream)
  {
    if |payload| == 0 || |payload| > MAX_FRAME_SIZE {
      return None;
    }
    FirstFrame(payload, []);
    assert FrameOf(payload) + [] == FrameOf(payload);
    written := Some(Header(|payload|) + payload);
  }

  predicate AllSendable(payloads: seq<Bytes>) {
    forall i :: 0 <= i < |payloads| ==> Sendable(payloads[i])
  }

  /** The byte stream that carries the given payloads. */
  function FrameAll(payloads: seq<Bytes>): Bytes
    requires AllSendable(payloads)
  {
    if payloads == [] then [] else FrameOf(payloads[0]) + FrameAll(payloads[1..])
  }

  // ----- Reading -----

  datatype Ending = EndOfStream | TruncatedPayload | InvalidSize

  datatype Deframed = Deframed(payloads: seq<Bytes>, ending: Ending)

  predicate AcceptedSize(size: nat) {
    0 < size <= MAX_FRAME_SIZE
  }

  /** What a reader makes of a whole stream: a cut in a header reads like an ordinary end. */
  function Deframe(stream: Bytes): Deframed
    decreases |stream|
  {
    if |stream| < HEADER_SIZE then Deframed([], EndOfStream)
    else
      var size := SizeOf(stream);
      if !AcceptedSize(size) then Deframed([], InvalidSize)
      else if |stream| < HEADER_SIZE + size then Deframed([], TruncatedPayload)
      else
        var rest := Deframe(stream[HEADER_SIZE + size..]);
        Deframed([stream[HEADER_SIZE..HEADER_SIZE + size]] + rest.payloads, rest.ending)
  }

  lemma FirstFrame(payload: Bytes, rest: Bytes)
    requires Sendable(payload)
    ensures var stream := FrameOf(payload) + rest;
            && Deframe(stream).payloads == [payload] + Deframe(rest).payloads
            && Deframe(stream).ending == Deframe(rest).ending
  {
    var stream, size := FrameOf(payload) + rest, |payload|;
    HeaderRoundTrip(size);
    assert stream[0] == Header(size)[0] && stream[1] == Header(size)[1];
    assert stream[2] == Header(size)[2] && stream[3] == Header(size)[3];
    assert SizeOf(stream) == SizeOf(Header(size));
    assert stream[HEADER_SIZE..HEADER_SIZE + size] == payload;
    assert stream[HEADER_SIZE + size..] == rest;
  }

  /** Round trip: the frames of any payloads are read back as those payloads, whatever follows. */
  lemma {:induction false} FramesAreReadBack(payloads: seq<Bytes>, rest: Bytes)
    requires AllSendable(payloads)
    ensures Deframe(FrameAll(payloads) + rest).payloads == payloads + Deframe(rest).payloads
    ensures Deframe(FrameAll(payloads) + rest).ending == Deframe(rest).ending
  {
    if payloads == [] {
      assert FrameAll(payloads) + rest == rest;
      assert payloads + Deframe(rest).payloads == Deframe(rest).payloads;
    } else {
      var first, others := payloads[0], payloads[1..];
      FramesAreReadBack(others, rest);
      FirstFrame(first, FrameAll(others) + rest);
      Regroup(FrameOf(first), FrameAll(others), rest);
      Regroup([first], others, Deframe(rest).payloads);
      assert payloads == [first] + others;
    }
  }

  lemma Regroup<T>(a: seq<T>, b: seq<T>, c: seq<T>)
    ensures (a + b) + c == a + (b + c)
  {
  }

  /** Every accepted stream re-encodes to itself, up to a rest that holds no whole frame. */
  lemma {:induction false} AcceptedReencodes(stream: Bytes) returns (rest: Bytes)
    ensures AllSendable(Deframe(stream).payloads)
    ensures stream == FrameAll(Deframe(stream).payloads) + rest
    ensures Deframe(rest) == Deframed([], Deframe(stream).ending)
    ensures Deframe(stream).ending.EndOfStream? <==> |rest| < HEADER_SIZE
    decreases |stream|
  {
    if |stream| < HEADER_SIZE || !AcceptedSize(SizeOf(stream)) || |stream| < HEADER_SIZE + SizeOf(stream) {
      rest := stream;
      assert FrameAll([]) + rest == rest;
    } else {
      var size := SizeOf(stream);
      var payload, tail := stream[HEADER_SIZE..HEADER_SIZE + size], stream[HEADER_SIZE + size..];
      rest := AcceptedReencodes(tail);
      StartsWithFrame(stream);
      Regroup(FrameOf(payload), FrameAll(Deframe(tail).payloads), rest);
      var all := [payload] + Deframe(tail).payloads;
      assert all[0] == payload && all[1..] == Deframe(tail).payloads;
    }
  }

  lemma StartsWithFrame(stream: Bytes)
    requires |stream| >= HEADER_SIZE && AcceptedSize(SizeOf(stream)) && |stream| >= HEADER_SIZE + SizeOf(stream)
    ensures var size := SizeOf(stream);
            stream == FrameOf(stream[HEADER_SIZE..HEADER_SIZE + size]) + stream[HEADER_SIZE + size..]
  {
    var size, header := SizeOf(stream), stream[..HEADER_SIZE];
    SizeRoundTrip(header);
    assert SizeOf(header) == size;
    assert stream == (header + stream[HEADER_SIZE..HEADER_SIZE + size]) + stream[HEADER_SIZE + size..];
  }

  /** Exactly the payloads of 1 to 65536 bytes survive: the sender also lets the empty one out. */
  lemma SenderAndReceiverAgree(payload: Bytes)
    requires |payload| <= MAX_FRAME_SIZE
    ensures Deframe(FrameOf(payload)).payloads == [payload] <==> Sendable(payload)
    ensures !Sendable(payload) ==> Deframe(FrameOf(payload)) == Deframed([], InvalidSize)
  {
    var frame := FrameOf(payload);
    if Sendable(payload) {
      assert FrameOf(payload) + [] == frame;
      FirstFrame(payload, []);
    } else {
      HeaderRoundTrip(0);
      assert frame == Header(0);
    }
  }

  /** A frame cut short yields nothing, and is not taken for an invalid one. */
  lemma CutFrameYieldsNothing(payload: Bytes, n: nat)
    requires Sendable(payload) && n < HEADER_SIZE + |payload|
    ensures Deframe(FrameOf(payload)[..n])
         == Deframed([], if n < HEADER_SIZE then EndOfStream else TruncatedPayload)
  {
    if n >= HEADER_SIZE {
      var cut, header := FrameOf(payload)[..n], Header(|payload|);
      HeaderRoundTrip(|payload|);
      assert cut[0] == header[0] && cut[1] == header[1] && cut[2] == header[2] && cut[3] == header[3];
      assert SizeOf(cut) == SizeOf(header);
    }
  }

  // ----- However the stream is chunked -----

  function Flatten(chunks: seq<Bytes>): Bytes {
    if chunks == [] then [] else chunks[0] + Flatten(chunks[1..])
  }

  /** A reader that has `done` and takes one more payload still reaches the same result. */
  lemma NextPayload(stream: Bytes, done: seq<Bytes>, payload: Bytes, rest: Bytes)
    requires |stream| >= HEADER_SIZE && AcceptedSize(SizeOf(stream)) && |stream| >= HEADER_SIZE + SizeOf(stream)
    requires payload == stream[HEADER_SIZE..][..SizeOf(stream)]
    requires rest == stream[HEADER_SIZE..][SizeOf(stream)..]
    ensures done + Deframe(stream).payloads == (done + [payload]) + Deframe(rest).payloads
    ensures Deframe(stream).ending == Deframe(rest).ending
    ensures |rest| < |stream|
  {
    assert payload == stream[HEADER_SIZE..HEADER_SIZE + SizeOf(stream)];
    assert rest == stream[HEADER_SIZE + SizeOf(stream)..];
    Regroup(done, [payload], Deframe(rest).payloads);
  }

  /** Received bytes in the pieces they arrived in. */
  class ByteStream {
    var chunks: seq<Bytes>

    constructor (chunks: seq<Bytes>)
      ensures this.chunks == chunks
    {
      this.chunks := chunks;
    }

    ghost function Remaining(): Bytes
      reads this
    {
      Flatten(chunks)
    }

    /** Collects exactly n bytes out of as many pieces as it takes, or None at the end of the stream. */
    method ReadExactly(n: nat) returns (bytes: Option<Bytes>)
      modifies this
      ensures |old(Remaining())| >= n ==>
                bytes == Some(old(Remaining())[..n]) && Remaining() == old(Remaining())[n..]
      ensures |old(Remaining())| < n ==> bytes == None && Remaining() == []
    {
      var got: Bytes := [];
      while |got| < n && chunks != []
        invariant |got| <= n
        invariant got + Remaining() == old(Remaining())
        decreases |chunks|, |got| < n
      {
        var chunk, wanted := chunks[0], n - |got|;
        if |chunk| <= wanted {
          assert got + Remaining() == (got + chunk) + Flatten(chunks[1..]);
          got, chunks := got + chunk, chunks[1..];
        } else {
          assert got + Remaining() == (got + chunk[..wanted]) + (chunk[wanted..] + Flatten(chunks[1..]));
          got, chunks := got + chunk[..wanted], [chunk[wanted..]] + chunks[1..];
        }
      }
      if |got| < n {
        return None;
      }
      assert old(Remaining())[..n] == got;
      assert old(Remaining())[n..] == Remaining();
      bytes := Some(got);
    }

    /** The read loop: whole frames until the stream ends or breaks, independent of the chunks. */
    method ReadFrames() returns (payloads: seq<Bytes>, ending: Ending)
      modifies this
      ensures Deframed(payloads, ending) == Deframe(old(Remaining()))
    {
      payloads := [];
      ghost var whole := Deframe(Remaining());
      while true
        invariant whole.payloads == payloads + Deframe(Remaining()).payloads
        invariant whole.ending == Deframe(Remaining()).ending
        decreases |Remaining()|
      {
        ghost var before := Remaining();
        var header := ReadExactly(HEADER_SIZE);
        if header.None? {
          return payloads, EndOfStream;
        }
        var size := SizeOf(header.value);
        if size == 0 || size > MAX_FRAME_SIZE {
          return payloads, InvalidSize;
        }
        assert SizeOf(before) == size && Remaining() == before[HEADER_SIZE..];
        var payload := ReadExactly(size);
        if payload.None? {
          return payloads, TruncatedPayload;
        }
        NextPayload(before, payloads, payload.value, Remaining());
        payloads := payloads + [payload.value];
      }
    }
  }
}
