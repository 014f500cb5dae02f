/** The MQTT front end written in Rust: the read-and-frame loop of src/server/connection.rs and the
    codec of src/protocol/encoder.rs and src/protocol/decoder.rs.  The Remaining Length is one byte. */
module Framing {
  import opened Types

  type Byte = b: int | 0 <= b < 256

  datatype Frame = Frame(header: Byte, payload: seq<Byte>)

  /** Reading: still looping, with unframed bytes in the buffer.  Closed: a DISCONNECT ended the
      connection.  WriteFailed: a CONNACK could not be written. */
  datatype Status = Reading(buf: seq<Byte>) | Closed | WriteFailed

  datatype Conn = Conn(frames: seq<Frame>, written: seq<Byte>, writes: nat, status: Status)

  const CONNACK: seq<Byte> := [0x20, 0x02, 0x00, 0x00]
  const START := Conn([], [], 0, Reading([]))

  /** header & 0xF0 */
  function HighNibble(header: Byte): int {
    header - header % 16
  }

  predicate IsConnect(f: Frame) { HighNibble(f.header) == 0x10 }
  predicate IsDisconnect(f: Frame) { HighNibble(f.header) == 0xE0 }

  /** Fixed header, length byte and payload together. */
  function FrameLength(buf: seq<Byte>): int
    requires |buf| >= 2
  {
    var remaining: int := buf[1];
    2 + remaining
  }

  predicate HasFrame(buf: seq<Byte>) {
    |buf| >= 2 && |buf| >= FrameLength(buf)
  }

  function FrameOf(buf: seq<Byte>): Frame
    requires HasFrame(buf)
  {
    Frame(buf[0], buf[2..FrameLength(buf)])
  }

  function AfterFrame(buf: seq<Byte>): seq<Byte>
    requires HasFrame(buf)
  {
    buf[FrameLength(buf)..]
  }

  /** What one extracted frame does; `writable(n)` says whether write number n succeeds. */
  function Dispatch(c: Conn, f: Frame, rest: seq<Byte>, writable: nat -> bool): Conn {
    var c1 := c.(frames := c.frames + [f], status := Reading(rest));
    if IsConnect(f) then
      if writable(c.writes) then c1.(written := c.written + CONNACK, writes := c.writes + 1)
      else c1.(status := WriteFailed)
    else if IsDisconnect(f) then c1.(status := Closed)
    else c1
  }

  /** One pass over everything in the buffer. */
  function Drain(c: Conn, writable: nat -> bool): Conn
    decreases if c.status.Reading? then |c.status.buf| else 0
  {
    if c.status.Reading? && HasFrame(c.status.buf) then
      var buf := c.status.buf;
      Drain(Dispatch(c, FrameOf(buf), AfterFrame(buf), writable), writable)
    else c
  }

  function Append(c: Conn, bytes: seq<Byte>): Conn {
    if c.status.Reading? then c.(status := Reading(c.status.buf + bytes)) else c
  }

  lemma AppendTwice(c: Conn, a: seq<Byte>, b: seq<Byte>)
    ensures Append(Append(c, a), b) == Append(c, a + b)
  {
    if c.status.Reading? {
      assert (c.status.buf + a) + b == c.status.buf + (a + b);
    }
  }

  lemma DispatchAppend(c: Conn, f: Frame, rest: seq<Byte>, bytes: seq<Byte>, writable: nat -> bool)
    requires c.status.Reading?
    ensures Dispatch(Append(c, bytes), f, rest + bytes, writable) == Append(Dispatch(c, f, rest, writable), bytes)
  {
  }

  lemma FrameAppend(buf: seq<Byte>, bytes: seq<Byte>)
    requires HasFrame(buf)
    ensures HasFrame(buf + bytes) && FrameOf(buf + bytes) == FrameOf(buf)
    ensures AfterFrame(buf + bytes) == AfterFrame(buf) + bytes
  {
    assert (buf + bytes)[2..FrameLength(buf)] == buf[2..FrameLength(buf)];
  }

  /** Framing early or late makes no difference: bytes that arrive after some frames were taken
      out are treated as if they had been there from the start. */
  lemma {:induction false} DrainAppend(c: Conn, bytes: seq<Byte>, writable: nat -> bool)
    ensures Drain(Append(Drain(c, writable), bytes), writable) == Drain(Append(c, bytes), writable)
    decreases if c.status.Reading? then |c.status.buf| else 0
  {
    if c.status.Reading? && HasFrame(c.status.buf) {
      var buf := c.status.buf;
      var f, rest := FrameOf(buf), AfterFrame(buf);
      FrameAppend(buf, bytes);
      DispatchAppend(c, f, rest, bytes, writable);
      DrainAppend(Dispatch(c, f, rest, writable), bytes, writable);
    }
  }

  /** The bytes received before end of stream: a read of length zero ends the connection. */
  function Received(chunks: seq<seq<Byte>>): seq<Byte> {
    if chunks == [] || chunks[0] == [] then [] else chunks[0] + Received(chunks[1..])
  }

  /** A read of length zero is the end: what was read before it is received, whatever would follow. */
  lemma {:induction false} ZeroReadEnds(before: seq<seq<Byte>>, after: seq<seq<Byte>>)
    requires forall i :: 0 <= i < |before| ==> before[i] != []
    ensures Received(before + [[]] + after) == Received(before) == FlatMap(before, (chunk: seq<Byte>) => chunk)
  {
    var id := (chunk: seq<Byte>) => chunk;
    if before == [] {
      assert ([] + [[]] + after)[0] == [];
    } else {
      var first, rest := before[0], before[1..];
      ZeroReadEnds(rest, after);
      assert (before + [[]] + after)[0] == first && (before + [[]] + after)[1..] == rest + [[]] + after;
      assert before == [first] + rest;
      FlatMapConcat([first], rest, id);
      FlatMapSnoc([], first, id);
      assert [] + [first] == [first];
    }
  }

  /** The inner loop: takes frames off the buffer while there is a whole one and no reason to stop. */
  method TakeFrames(fed: Conn, writable: nat -> bool) returns (c: Conn)
    ensures c == Drain(fed, writable)
    ensures c.status.Reading? ==> !HasFrame(c.status.buf)
  {
    c := fed;
    while c.status.Reading? && HasFrame(c.status.buf)
      invariant Drain(c, writable) == Drain(fed, writable)
      decreases if c.status.Reading? then |c.status.buf| else 0
    {
      var buf := c.status.buf;
      c := Dispatch(c, FrameOf(buf), AfterFrame(buf), writable);
    }
  }

  /** The connection handler: the outer loop reads, the inner loop frames.  Chunking independence:
      the frames, the bytes written and the way it ends depend only on the concatenation. */
  method Handle(chunks: seq<seq<Byte>>, writable: nat -> bool) returns (c: Conn)
    ensures c == Drain(Append(START, Received(chunks)), writable)
    ensures ByHeader(c, writable)
  {
    HandledByHeader(chunks, writable);
    c := START;
    var n := 0;
    while n < |chunks|
      invariant 0 <= n <= |chunks|
      invariant c.status.Reading? && !HasFrame(c.status.buf)
      invariant Drain(Append(START, Received(chunks)), writable) == Drain(Append(c, Received(chunks[n..])), writable)
    {
      var chunk := chunks[n];
      if |chunk| == 0 {
        break;
      }
      ghost var rest := chunks[n..];
      assert rest[0] == chunk && rest[1..] == chunks[n + 1..];
      AppendTwice(c, chunk, Received(chunks[n + 1..]));
      DrainAppend(Append(c, chunk), Received(chunks[n + 1..]), writable);
      c := TakeFrames(Append(c, chunk), writable);
      if !c.status.Reading? {
        return;
      }
      n := n + 1;
    }
    assert Received(chunks[n..]) == [];
    assert Append(c, []) == c;
  }

  function Wire(f: Frame): seq<int> {
    [f.header, |f.payload|] + f.payload
  }

  function Acks(f: Frame): seq<Byte> {
    if IsConnect(f) then CONNACK else []
  }

  /** No byte is lost, invented or reordered: the frames handed out followed by what is left in
      the buffer are the bytes received; every CONNECT is answered by one CONNACK, in order; the
      connection closes at the first DISCONNECT and only there. */
  ghost predicate Accounts(c: Conn, stream: seq<Byte>) {
    BytesKept(c, stream) && ClosedInTime(c) && Answered(c)
  }

  ghost predicate BytesKept(c: Conn, stream: seq<Byte>) {
    && (forall f :: f in c.frames ==> |f.payload| < 256)
    && FlatMap(c.frames, Wire) <= stream
    && (c.status.Reading? ==> FlatMap(c.frames, Wire) + c.status.buf == stream)
  }

  ghost predicate ClosedInTime(c: Conn) {
    && (forall i :: 0 <= i < |c.frames| - 1 ==> !IsDisconnect(c.frames[i]))
    && (c.status.Closed? <==> c.frames != [] && IsDisconnect(c.frames[|c.frames| - 1]))
  }

  ghost predicate Answered(c: Conn) {
    && (!c.status.WriteFailed? ==> c.written == FlatMap(c.frames, Acks))
    && (c.status.WriteFailed? ==> c.frames != [] && IsConnect(c.frames[|c.frames| - 1])
                                  && c.written == FlatMap(c.frames[..|c.frames| - 1], Acks))
  }

  lemma DispatchKeepsBytes(c: Conn, stream: seq<Byte>, writable: nat -> bool)
    requires BytesKept(c, stream) && c.status.Reading? && HasFrame(c.status.buf)
    ensures BytesKept(Dispatch(c, FrameOf(c.status.buf), AfterFrame(c.status.buf), writable), stream)
  {
    var buf := c.status.buf;
    var f, rest := FrameOf(buf), AfterFrame(buf);
    FlatMapSnoc(c.frames, f, Wire);
    assert buf == Wire(f) + rest;
    assert FlatMap(c.frames, Wire) + Wire(f) + rest == stream;
  }

  lemma DispatchAnswers(c: Conn, f: Frame, rest: seq<Byte>, writable: nat -> bool)
    requires Answered(c) && c.status.Reading?
    ensures Answered(Dispatch(c, f, rest, writable))
  {
    FlatMapSnoc(c.frames, f, Acks);
    assert (c.frames + [f])[..|c.frames|] == c.frames;
  }

  lemma DispatchCloses(c: Conn, f: Frame, rest: seq<Byte>, writable: nat -> bool)
    requires ClosedInTime(c) && c.status.Reading?
    ensures ClosedInTime(Dispatch(c, f, rest, writable))
  {
  }

  lemma DispatchAccounts(c: Conn, stream: seq<Byte>, writable: nat -> bool)
    requires Accounts(c, stream) && c.status.Reading? && HasFrame(c.status.buf)
    ensures Accounts(Dispatch(c, FrameOf(c.status.buf), AfterFrame(c.status.buf), writable), stream)
  {
    DispatchKeepsBytes(c, stream, writable);
    DispatchAnswers(c, FrameOf(c.status.buf), AfterFrame(c.status.buf), writable);
    DispatchCloses(c, FrameOf(c.status.buf), AfterFrame(c.status.buf), writable);
  }

  lemma {:induction false} DrainAccounts(c: Conn, stream: seq<Byte>, writable: nat -> bool)
    requires Accounts(c, stream)
    ensures Accounts(Drain(c, writable), stream)
    ensures Drain(c, writable).status.Reading? ==> !HasFrame(Drain(c, writable).status.buf)
    decreases if c.status.Reading? then |c.status.buf| else 0
  {
    if c.status.Reading? && HasFrame(c.status.buf) {
      var buf := c.status.buf;
      DispatchAccounts(c, stream, writable);
      DrainAccounts(Dispatch(c, FrameOf(buf), AfterFrame(buf), writable), stream, writable);
    }
  }

  /** The whole connection accounts for every byte it received. */
  lemma HandleAccounts(chunks: seq<seq<Byte>>, writable: nat -> bool)
    ensures Accounts(Drain(Append(START, Received(chunks)), writable), Received(chunks))
  {
    var c := Append(START, Received(chunks));
    assert FlatMap(c.frames, Wire) + c.status.buf == Received(chunks);
    DrainAccounts(c, Received(chunks), writable);
  }

  // ---- The same, byte by byte ----

  /** What goes back for a frame, by its header byte: the four bytes of CONNACK for 0x10 to 0x1F. */
  function AnswerTo(f: Frame): seq<Byte> {
    if 0x10 <= f.header <= 0x1F then [0x20, 0x02, 0x00, 0x00] else []
  }

  /** Headers 0x10 to 0x1F are answered, one by one and in order, as long as writing succeeds; the
      connection closes at a header 0xE0 to 0xEF and only there; every other header writes nothing and
      goes on. */
  ghost predicate ByHeader(c: Conn, writable: nat -> bool) {
    ClosesByHeader(c) && AnswersByHeader(c, writable)
  }

  ghost predicate ClosesByHeader(c: Conn) {
    var n := |c.frames| - 1;
    && (c.status.Closed? <==> n >= 0 && 0xE0 <= c.frames[n].header <= 0xEF)
    && (forall i :: 0 <= i < n ==> !(0xE0 <= c.frames[i].header <= 0xEF))
  }

  ghost predicate AnswersByHeader(c: Conn, writable: nat -> bool) {
    var n := |c.frames| - 1;
    && (if c.status.WriteFailed?
        then n >= 0 && 0x10 <= c.frames[n].header <= 0x1F && c.written == FlatMap(c.frames[..n], AnswerTo)
             && !writable(c.writes)
        else c.written == FlatMap(c.frames, AnswerTo))
    && |c.written| == 4 * c.writes && forall w :: 0 <= w < c.writes ==> writable(w)
  }

  lemma HeaderBytes(f: Frame)
    ensures IsConnect(f) <==> 0x10 <= f.header <= 0x1F
    ensures IsDisconnect(f) <==> 0xE0 <= f.header <= 0xEF
  {
  }

  lemma DispatchClosesByHeader(c: Conn, f: Frame, rest: seq<Byte>, writable: nat -> bool)
    requires ClosesByHeader(c) && c.status.Reading?
    ensures ClosesByHeader(Dispatch(c, f, rest, writable))
  {
    HeaderBytes(f);
  }

  lemma DispatchAnswersByHeader(c: Conn, f: Frame, rest: seq<Byte>, writable: nat -> bool)
    requires AnswersByHeader(c, writable) && c.status.Reading?
    ensures AnswersByHeader(Dispatch(c, f, rest, writable), writable)
  {
    HeaderBytes(f);
    FlatMapSnoc(c.frames, f, AnswerTo);
    TakeConcat(c.frames, [f], |c.frames|);
    assert c.frames[..|c.frames|] == c.frames;
  }

  lemma {:induction false} DrainByHeader(c: Conn, writable: nat -> bool)
    requires ByHeader(c, writable)
    ensures ByHeader(Drain(c, writable), writable)
    decreases if c.status.Reading? then |c.status.buf| else 0
  {
    if c.status.Reading? && HasFrame(c.status.buf) {
      var buf := c.status.buf;
      DispatchClosesByHeader(c, FrameOf(buf), AfterFrame(buf), writable);
      DispatchAnswersByHeader(c, FrameOf(buf), AfterFrame(buf), writable);
      DrainByHeader(Dispatch(c, FrameOf(buf), AfterFrame(buf), writable), writable);
    }
  }

  lemma HandledByHeader(chunks: seq<seq<Byte>>, writable: nat -> bool)
    ensures ByHeader(Drain(Append(START, Received(chunks)), writable), writable)
  {
    DrainByHeader(Append(START, Received(chunks)), writable);
  }

  // ---- Codec ----

  datatype Message = Message(topic: string, payload: seq<Byte>)

  /** The one-byte length field holds the payload length modulo 256. */
  function Encoded(p: Message): seq<Byte> {
    [0x30, |p.payload| % 256] + p.payload
  }

  method EncodePacket(p: Message) returns (out: seq<Byte>)
    ensures out == Encoded(p)
    ensures |out| == 2 + |p.payload| && out[0] == 0x30 && out[1] == |p.payload| % 256 && out[2..] == p.payload
  {
    out := [];
    out := out + [0x30];
    out := out + [|p.payload| % 256];
    out := out + p.payload;
  }

  function Decoded(bytes: seq<Byte>): Option<Message> {
    if HasFrame(bytes) then Some(Message("test/topic", FrameOf(bytes).payload)) else None
  }

  method DecodePacket(bytes: seq<Byte>) returns (packet: Option<Message>)
    ensures packet == Decoded(bytes)
    ensures if |bytes| < 2 || |bytes| - 2 < bytes[1] then packet == None
            else packet == Some(Message("test/topic", bytes[2..][..bytes[1]]))
  {
    var cursor := bytes;
    if |cursor| < 2 {
      return None;
    }
    cursor := cursor[1..];
    var len := cursor[0];
    cursor := cursor[1..];
    if |cursor| < len {
      return None;
    }
    assert cursor[..len] == bytes[2..2 + len];
    return Some(Message("test/topic", cursor[..len]));
  }

  /** Decoding an encoding gives the first (length mod 256) payload bytes under a fixed topic; it
      gives the packet back exactly when the payload fits the length byte and the topic is that one. */
  lemma DecodeEncode(p: Message)
    ensures Decoded(Encoded(p)) == Some(Message("test/topic", p.payload[..|p.payload| % 256]))
    ensures Decoded(Encoded(p)) == Some(p) <==> |p.payload| <= 255 && p.topic == "test/topic"
  {
    var bytes := Encoded(p);
    assert bytes[2..FrameLength(bytes)] == p.payload[..|p.payload| % 256];
    if |p.payload| <= 255 {
      assert p.payload[..|p.payload|] == p.payload;
    } else {
      assert |p.payload[..|p.payload| % 256]| < |p.payload|;
    }
  }

  function Framed(p: Message): Frame {
    Frame(0x30, p.payload)
  }

  function FramesOf(ps: seq<Message>): (fs: seq<Frame>)
    ensures |fs| == |ps| && forall i :: 0 <= i < |ps| ==> fs[i] == Framed(ps[i])
  {
    seq(|ps|, i requires 0 <= i < |ps| => Framed(ps[i]))
  }

  ghost predicate Fits(ps: seq<Message>) {
    forall i :: 0 <= i < |ps| ==> |ps[i].payload| <= 255
  }

  function Encodings(ps: seq<Message>): seq<Byte> {
    FlatMap(ps, Encoded)
  }

  /** One encoding in an otherwise empty buffer is taken out as one frame. */
  lemma FrameOneEncoding(frames: seq<Frame>, p: Message, writable: nat -> bool)
    requires |p.payload| <= 255
    ensures Drain(Append(START.(frames := frames), Encoded(p)), writable) ==
            START.(frames := frames + [Framed(p)])
  {
    var bytes := Encoded(p);
    var c := Append(START.(frames := frames), bytes);
    assert c.status.buf == bytes;
    assert FrameOf(bytes) == Framed(p);
    assert AfterFrame(bytes) == [];
    assert HighNibble(0x30) == 0x30;
    var c1 := Dispatch(c, Framed(p), [], writable);
    assert c1 == START.(frames := frames + [Framed(p)]);
    assert Drain(c1, writable) == c1;
  }

  lemma {:induction false} FrameEncodings(ps: seq<Message>, writable: nat -> bool)
    requires Fits(ps)
    ensures Drain(Append(START, Encodings(ps)), writable) == START.(frames := FramesOf(ps))
  {
    if ps == [] {
      assert FramesOf(ps) == [];
    } else {
      var front, last := ps[..|ps| - 1], ps[|ps| - 1];
      FrameEncodings(front, writable);
      AppendTwice(START, Encodings(front), Encoded(last));
      DrainAppend(Append(START, Encodings(front)), Encoded(last), writable);
      FrameOneEncoding(FramesOf(front), last, writable);
      assert FramesOf(ps) == FramesOf(front) + [Framed(last)];
    }
  }

  /** Sending the encodings of any packets through the framing loop, in any chunks, gives back
      exactly their payloads in order, if and only if every payload fits the length byte. */
  lemma CodecFramingRoundTrip(ps: seq<Message>, chunks: seq<seq<Byte>>, writable: nat -> bool)
    requires Received(chunks) == Encodings(ps)
    ensures Drain(Append(START, Received(chunks)), writable) == START.(frames := FramesOf(ps)) <==> Fits(ps)
    ensures forall i :: 0 <= i < |ps| ==> FramesOf(ps)[i].header == 0x30 && FramesOf(ps)[i].payload == ps[i].payload
  {
    if Fits(ps) {
      FrameEncodings(ps, writable);
    } else {
      HandleAccounts(chunks, writable);
      var i :| 0 <= i < |ps| && |ps[i].payload| > 255;
      assert FramesOf(ps)[i] in FramesOf(ps);
    }
  }

  // ---- The length field against section 2.2.3 of MQTT 3.1.1 ----

  /** The Remaining Length at the start of `bytes`, of at most `digits` digits: the number of digits
      and their value in base 128, least digit first, where a digit with its high bit set is not the
      last.  None if it is not finished. */
  function RemainingLength(bytes: seq<Byte>, digits: nat): (r: Option<(nat, nat)>)
    ensures r.Some? ==> 1 <= r.value.0 <= digits
    decreases digits
  {
    if digits == 0 || bytes == [] then None
    else if bytes[0] < 128 then Some((1, bytes[0]))
    else
      match RemainingLength(bytes[1..], digits - 1)
      case None => None
      case Some((n, v)) => Some((n + 1, bytes[0] - 128 + 128 * v))
  }

  /** The length of the packet at the start of `buf` by the standard: the fixed header byte, at most
      four length digits, and what these announce. */
  function StandardLength(buf: seq<Byte>): Option<nat>
    requires |buf| >= 2
  {
    match RemainingLength(buf[1..], 4)
    case None => None
    case Some((n, v)) => Some(1 + n + v)
  }

  /** The front end cuts packets where the standard does exactly when the length byte is below 128. */
  lemma OneByteLengthExactly(buf: seq<Byte>)
    requires |buf| >= 2
    ensures StandardLength(buf) == Some(FrameLength(buf)) <==> buf[1] < 128
  {
    var field := buf[1..];
    assert field[0] == buf[1];
    if buf[1] >= 128 && RemainingLength(field[1..], 3).Some? {
      var (n, v) := RemainingLength(field[1..], 3).value;
      assert StandardLength(buf) == Some(1 + (n + 1) + (buf[1] - 128 + 128 * v));
    }
  }

  /** The smallest length it gets wrong, for every payload of 128 bytes: the second length digit is
      taken for payload and the last payload byte for the start of the next packet. */
  lemma LengthOf128(payload: seq<Byte>)
    requires |payload| == 128
    ensures var buf := [0x30, 0x80, 0x01] + payload;
            && StandardLength(buf) == Some(|buf|)
            && HasFrame(buf) && FrameOf(buf).payload == [0x01] + payload[..127] && AfterFrame(buf) == payload[127..]
  {
    var buf := [0x30, 0x80, 0x01] + payload;
    var field := buf[1..];
    assert field[0] == 0x80 && field[1..][0] == 0x01;
    assert RemainingLength(field[1..], 3) == Some((1, 1));
    assert RemainingLength(field, 4) == Some((2, 128));
    assert buf[2..130] == [0x01] + payload[..127];
  }

  /** The encoder's output is one packet of the standard exactly when the payload has at most 127 bytes. */
  lemma EncodedIsStandardExactly(p: Message)
    ensures StandardLength(Encoded(p)) == Some(|Encoded(p)|) <==> |p.payload| <= 127
  {
    var bytes := Encoded(p);
    OneByteLengthExactly(bytes);
    LengthByte(|p.payload|);
    var field := bytes[1..];
    assert field[0] == bytes[1] == |p.payload| % 256;
    if |p.payload| > 127 && bytes[1] >= 128 && RemainingLength(field[1..], 3).Some? {
      var (n, v) := RemainingLength(field[1..], 3).value;
      assert StandardLength(bytes) == Some(1 + (n + 1) + (bytes[1] - 128 + 128 * v));
    }
  }

  lemma LengthByte(n: nat)
    ensures n <= 127 ==> n % 256 == n
    ensures n > 127 && n % 256 < 128 ==> n > n % 256
  {
  }
}
