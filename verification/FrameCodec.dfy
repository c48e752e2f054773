/**
 The frames of the Unix domain engine: a code byte, a 16-bit little-endian
 length, and the payload, sent with one gathering call and received with two
 calls that wait for all the bytes asked for or the end of the stream.
 */
module FrameCodec {
  import opened Basics

  datatype Errno = EPIPE | EMSGSIZE | EIO

  datatype Frame = Frame(code: Byte, payload: Bytes)

  datatype Outcome = Received(frame: Frame) | Failed(errno: Errno)

  const HEADER := 3

  /** A length converted to uint16_t. */
  function Truncated(n: nat): nat {
    n % 65536
  }

  function Low(n: nat): Byte {
    n % 256
  }

  function High(n: nat): Byte {
    n / 256 % 256
  }

  /** SendProtocolMessage: the length is truncated, the payload is not. */
  function Encode(f: Frame): Bytes {
    var size := Truncated(|f.payload|);
    [f.code, Low(size), High(size)] + f.payload
  }

  function Min(a: nat, b: nat): nat {
    if a < b then a else b
  }

  /** The length as far as it was received into a variable that was zero. */
  function Size(header: Bytes): nat {
    var low: nat := if |header| > 1 then header[1] else 0;
    var high: nat := if |header| > 2 then header[2] else 0;
    low + 256 * high
  }

  /** ReceiveProtocolMessage with a receive buffer of `capacity` bytes: the outcome and what is left in the stream. */
  function Receive(stream: Bytes, capacity: nat): (Outcome, Bytes) {
    var n := Min(HEADER, |stream|);
    var header, rest := stream[..n], stream[n..];
    var size := Size(header);
    if n == 0 then (Failed(EPIPE), rest)
    else if size == 0 then (Received(Frame(header[0], [])), rest)
    else if size > Truncated(capacity) then (Failed(EMSGSIZE), rest)
    else
      var got := Min(size, |rest|);
      if got != size then (Failed(EIO), rest[got..])
      else (Received(Frame(header[0], rest[..got])), rest[got..])
  }

  lemma SizeOfLength(n: nat)
    requires n < 65536
    ensures Low(n) + 256 * High(n) == n
  {
  }

  /** The two calls, on a stream that starts with an encoded frame. */
  lemma HeaderOf(f: Frame, tail: Bytes)
    ensures var stream := Encode(f) + tail;
            && |stream| >= HEADER && stream[..HEADER][0] == f.code
            && Size(stream[..HEADER]) == Truncated(|f.payload|) && stream[HEADER..] == f.payload + tail
  {
    var stream := Encode(f) + tail;
    SizeOfLength(Truncated(|f.payload|));
    assert stream == [f.code, Low(Truncated(|f.payload|)), High(Truncated(|f.payload|))] + (f.payload + tail);
    assert stream[..HEADER] == [f.code, Low(Truncated(|f.payload|)), High(Truncated(|f.payload|))];
  }

  /** The frames a receive buffer of that capacity can take. */
  predicate Fits(f: Frame, capacity: nat) {
    |f.payload| < 65536 && (f.payload == [] || |f.payload| <= Truncated(capacity))
  }

  /** A frame arrives, with the rest of the stream untouched, if and only if it fits. */
  lemma RoundTripIff(f: Frame, tail: Bytes, capacity: nat)
    ensures Receive(Encode(f) + tail, capacity) == (Received(f), tail) <==> Fits(f, capacity)
    ensures Fits(f, capacity) <==> Receive(Encode(f) + tail, capacity).0 == Received(f)
  {
    HeaderOf(f, tail);
    var rest := f.payload + tail;
    var size := Truncated(|f.payload|);
    assert rest[..|f.payload|] == f.payload && rest[|f.payload|..] == tail;
    if |f.payload| >= 65536 {
      assert size < |f.payload|;
    }
  }

  /** Both ends agree for every length up to the buffer's, as long as that is at most 65535. */
  lemma RoundTrip(f: Frame, tail: Bytes, capacity: nat)
    requires |f.payload| <= capacity < 65536
    ensures Receive(Encode(f) + tail, capacity) == (Received(f), tail)
  {
    RoundTripIff(f, tail, capacity);
  }

  /** A frame too long for the buffer is refused, and its payload stays in the stream. */
  lemma OversizeLeavesPayload(f: Frame, tail: Bytes, capacity: nat)
    requires Truncated(capacity) < |f.payload| < 65536
    ensures Receive(Encode(f) + tail, capacity) == (Failed(EMSGSIZE), f.payload + tail)
  {
    HeaderOf(f, tail);
  }

  // ----- a stream of frames

  function EncodeAll(frames: seq<Frame>): Bytes {
    if |frames| == 0 then [] else Encode(frames[0]) + EncodeAll(frames[1..])
  }

  function ReceiveMany(stream: Bytes, capacity: nat, n: nat): (seq<Outcome>, Bytes) {
    if n == 0 then ([], stream)
    else
      var (outcome, rest) := Receive(stream, capacity);
      var (outcomes, rest') := ReceiveMany(rest, capacity, n - 1);
      ([outcome] + outcomes, rest')
  }

  function Arrived(frames: seq<Frame>): seq<Outcome> {
    seq(|frames|, i requires 0 <= i < |frames| => Received(frames[i]))
  }

  /** Repeated receiving yields the frames that were sent, in order, if and only if each of them fits. */
  lemma {:induction false} StreamRoundTripIff(frames: seq<Frame>, tail: Bytes, capacity: nat)
    ensures ReceiveMany(EncodeAll(frames) + tail, capacity, |frames|) == (Arrived(frames), tail)
            <==> forall f :: f in frames ==> Fits(f, capacity)
    decreases |frames|
  {
    if |frames| == 0 {
      assert EncodeAll(frames) + tail == tail;
    } else {
      var later := EncodeAll(frames[1..]) + tail;
      assert EncodeAll(frames) + tail == Encode(frames[0]) + later;
      RoundTripIff(frames[0], later, capacity);
      StreamRoundTripIff(frames[1..], tail, capacity);
      assert Arrived(frames) == [Received(frames[0])] + Arrived(frames[1..]);
      assert frames == [frames[0]] + frames[1..];
      var (outcomes, rest) := ReceiveMany(EncodeAll(frames) + tail, capacity, |frames|);
      var (outcome, left) := Receive(Encode(frames[0]) + later, capacity);
      var (others, rest') := ReceiveMany(left, capacity, |frames| - 1);
      assert outcomes == [outcome] + others && rest == rest';
      assert outcomes[0] == outcome && outcomes[1..] == others;
      assert Arrived(frames)[0] == Received(frames[0]) && Arrived(frames)[1..] == Arrived(frames[1..]);
    }
  }

  /** At the end of the stream. */
  lemma EndOfStream(frames: seq<Frame>, capacity: nat)
    requires forall f :: f in frames ==> Fits(f, capacity)
    ensures ReceiveMany(EncodeAll(frames), capacity, |frames|).1 == [] && Receive([], capacity).0 == Failed(EPIPE)
  {
    StreamRoundTripIff(frames, [], capacity);
    assert EncodeAll(frames) + [] == EncodeAll(frames);
  }

  /** A stream that ends within a frame: a frame cut off in its header can pass for an empty one. */
  lemma CutOffFailsIff(f: Frame, k: nat, capacity: nat)
    requires Fits(f, capacity) && k < |Encode(f)|
    ensures Receive(Encode(f)[..k], capacity).0.Failed? <==> k != 1 && (k != 2 || |f.payload| % 256 != 0)
    ensures Receive(Encode(f)[..k], capacity).0.Received? ==>
              Receive(Encode(f)[..k], capacity).0 == Received(Frame(f.code, []))
  {
    var stream := Encode(f)[..k];
    if k >= HEADER {
      assert stream[..HEADER] == (Encode(f) + [])[..HEADER];
      HeaderOf(f, []);
    } else {
      assert stream[..k] == stream;
    }
  }

  // ----- the receive buffer

  class Receiver {
    const buffer: array<Byte>

    constructor (capacity: nat)
      ensures fresh(buffer) && buffer.Length == capacity
    {
      buffer := new Byte[capacity];
    }

    /** recvmsg, waiting for all: up to `size` bytes of the stream to the start of the buffer. */
    method ReceiveBytes(stream: Bytes, size: nat) returns (got: nat)
      requires size <= buffer.Length
      modifies buffer
      ensures got == Min(size, |stream|)
      ensures buffer[..got] == stream[..got] && buffer[got..] == old(buffer[got..])
    {
      got := 0;
      while got < size && got < |stream|
        invariant got <= size && got <= |stream|
        invariant buffer[..got] == stream[..got] && buffer[got..] == old(buffer[got..])
      {
        buffer[got] := stream[got];
        assert buffer[..got + 1] == stream[..got + 1];
        assert buffer[got + 1..] == old(buffer[got..])[1..];
        got := got + 1;
      }
    }

    /** Writes the payload to the start of the buffer and nothing else, and never more than a length can say. */
    method ReceiveProtocolMessage(stream: Bytes) returns (outcome: Outcome, rest: Bytes)
      modifies buffer
      ensures (outcome, rest) == Receive(stream, buffer.Length)
      ensures outcome.Received? ==>
                var n := |outcome.frame.payload|;
                && n <= buffer.Length && buffer[..n] == outcome.frame.payload && buffer[n..] == old(buffer[n..])
      ensures Truncated(buffer.Length) <= buffer.Length
      ensures buffer[Truncated(buffer.Length)..] == old(buffer[Truncated(buffer.Length)..])
    {
      var n := Min(HEADER, |stream|);
      var header := stream[..n];
      rest := stream[n..];
      if n == 0 {
        return Failed(EPIPE), rest;
      }
      var size := Size(header);
      if size == 0 {
        return Received(Frame(header[0], [])), rest;
      }
      if size > Truncated(buffer.Length) {
        return Failed(EMSGSIZE), rest;
      }
      var got := ReceiveBytes(rest, size);
      ghost var limit := Truncated(buffer.Length);
      assert buffer[limit..] == buffer[got..][limit - got..];
      assert old(buffer[limit..]) == old(buffer[got..])[limit - got..];
      if got != size {
        return Failed(EIO), rest[got..];
      }
      return Received(Frame(header[0], buffer[..size])), rest[got..];
    }
  }
}
