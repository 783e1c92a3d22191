/** Length-prefixed frames: a four-byte big-endian size, then the payload. */
module Frames {
  import opened Options

  type Byte = b: int | 0 <= b < 256

  const MAX_FRAME_SIZE: nat := 0x10_0000

  // ----- Frames as values -----

  function Header(size: nat): (h: seq<Byte>)
    requires size < 0x1_0000_0000
    ensures |h| == 4
  {
    [size / 0x100_0000, size / 0x1_0000 % 0x100, size / 0x100 % 0x100, size % 0x100]
  }

  function Size(header: seq<Byte>): (n: nat)
    requires |header| == 4
    ensures n < 0x1_0000_0000
  {
    ((header[0] as int * 0x100 + header[1]) * 0x100 + header[2]) * 0x100 + header[3]
  }

  predicate Writable(payload: seq<Byte>) {
    |payload| <= MAX_FRAME_SIZE
  }

  function Frame(payload: seq<Byte>): seq<Byte>
    requires Writable(payload)
  {
    Header(|payload|) + payload
  }

  /** What a reader gets from a stream, and the part of the stream it leaves. */
  function Received(stream: seq<Byte>): (Option<seq<Byte>>, seq<Byte>) {
    if |stream| < 4 then (None, [])
    else
      var size := Size(stream[..4]);
      if size == 0 || size > MAX_FRAME_SIZE then (None, stream[4..])
      else if |stream| < 4 + size then (None, [])
      else (Some(stream[4..4 + size]), stream[4 + size..])
  }

  lemma Shifts(n: nat)
    ensures n / 0x1_0000 == n / 0x100 / 0x100 && n / 0x100_0000 == n / 0x1_0000 / 0x100
  {
  }

  /** One more byte at the low end, and off again. */
  lemma LowByte(high: nat, low: Byte)
    ensures (high * 0x100 + low) / 0x100 == high && (high * 0x100 + low) % 0x100 == low
  {
  }

  lemma SizeInvertsHeader(size: nat)
    requires size < 0x1_0000_0000
    ensures Size(Header(size)) == size
    ensures var h := Header(size);
            size == h[0] as int * 0x100_0000 + h[1] as int * 0x1_0000 + h[2] as int * 0x100 + h[3] as int
  {
    Shifts(size);
    var a, b := size / 0x100, size / 0x1_0000;
    assert size == a * 0x100 + size % 0x100;
    assert a == b * 0x100 + a % 0x100;
    assert b == size / 0x100_0000 * 0x100 + b % 0x100;
  }

  lemma HeaderInvertsSize(header: seq<Byte>)
    requires |header| == 4
    ensures Header(Size(header)) == header
  {
    var b: nat := header[0] as int * 0x100 + header[1];
    var a: nat := b * 0x100 + header[2];
    LowByte(header[0], header[1]);
    LowByte(b, header[2]);
    LowByte(a, header[3]);
    Shifts(Size(header));
    assert Size(header) == a * 0x100 + header[3];
  }

  /** A payload that was written comes back, with the rest of the stream untouched, unless it is empty. */
  lemma FrameRoundTripExactly(payload: seq<Byte>, rest: seq<Byte>)
    requires Writable(payload)
    ensures Received(Frame(payload) + rest) == (Some(payload), rest) <==> payload != []
  {
    var stream := Frame(payload) + rest;
    SizeInvertsHeader(|payload|);
    assert stream[..4] == Header(|payload|);
    assert stream[4..4 + |payload|] == payload && stream[4 + |payload|..] == rest;
  }

  /** A reader accepts a stream exactly when it starts with the frame of a payload that is not empty. */
  lemma AcceptedExactly(stream: seq<Byte>, payload: seq<Byte>, rest: seq<Byte>)
    ensures Received(stream) == (Some(payload), rest)
       <==> (payload != [] && Writable(payload) && stream == Frame(payload) + rest)
  {
    if Received(stream) == (Some(payload), rest) {
      HeaderInvertsSize(stream[..4]);
      assert stream == stream[..4] + payload + rest;
    }
    if payload != [] && Writable(payload) && stream == Frame(payload) + rest {
      FrameRoundTripExactly(payload, rest);
    }
  }

  // ----- Streams of frames -----

  predicate Sendable(payloads: seq<seq<Byte>>) {
    forall p <- payloads :: p != [] && Writable(p)
  }

  function StreamOf(payloads: seq<seq<Byte>>): seq<Byte>
    requires Sendable(payloads)
  {
    if payloads == [] then [] else Frame(payloads[0]) + StreamOf(payloads[1..])
  }

  /** Reading k frames one after the other; nothing when one of them is refused. */
  function ReceivedMany(stream: seq<Byte>, k: nat): Option<(seq<seq<Byte>>, seq<Byte>)> {
    if k == 0 then Some(([], stream))
    else
      match Received(stream) {
        case (None, _) => None
        case (Some(first), rest) =>
          match ReceivedMany(rest, k - 1)
          case None => None
          case Some((others, left)) => Some(([first] + others, left))
      }
  }

  lemma {:induction false} StreamIsReceived(payloads: seq<seq<Byte>>, rest: seq<Byte>)
    requires Sendable(payloads)
    ensures ReceivedMany(StreamOf(payloads) + rest, |payloads|) == Some((payloads, rest))
  {
    if payloads == [] {
      assert StreamOf(payloads) + rest == rest;
    } else {
      var others := payloads[1..];
      FrameRoundTripExactly(payloads[0], StreamOf(others) + rest);
      assert StreamOf(payloads) + rest == Frame(payloads[0]) + (StreamOf(others) + rest);
      StreamIsReceived(others, rest);
      assert payloads == [payloads[0]] + others;
    }
  }

  lemma {:induction false} ReceivedIsStream(stream: seq<Byte>, payloads: seq<seq<Byte>>, rest: seq<Byte>)
    requires ReceivedMany(stream, |payloads|) == Some((payloads, rest))
    ensures Sendable(payloads) && stream == StreamOf(payloads) + rest
    decreases |payloads|
  {
    if payloads == [] {
      assert stream == StreamOf(payloads) + rest;
    } else {
      var (first, left) := Received(stream);
      AcceptedExactly(stream, payloads[0], left);
      var (others, last) := ReceivedMany(left, |payloads| - 1).value;
      assert payloads == [payloads[0]] + others && payloads[1..] == others;
      ReceivedIsStream(left, payloads[1..], rest);
      assert stream == StreamOf(payloads) + rest;
    }
  }

  /** Reading k frames succeeds exactly on the frames of k payloads that may be sent, followed by anything. */
  lemma StreamRoundTrip(stream: seq<Byte>, payloads: seq<seq<Byte>>, rest: seq<Byte>)
    ensures ReceivedMany(stream, |payloads|) == Some((payloads, rest))
       <==> (Sendable(payloads) && stream == StreamOf(payloads) + rest)
  {
    if ReceivedMany(stream, |payloads|) == Some((payloads, rest)) {
      ReceivedIsStream(stream, payloads, rest);
    } else if Sendable(payloads) {
      StreamIsReceived(payloads, rest);
    }
  }

  /** A stream cut short anywhere does not give all its frames. */
  lemma {:induction false} TruncatedStreamIsRefused(payloads: seq<seq<Byte>>, cut: nat)
    requires Sendable(payloads) && cut < |StreamOf(payloads)|
    ensures ReceivedMany(StreamOf(payloads)[..cut], |payloads|) == None
  {
    var first, others := Frame(payloads[0]), StreamOf(payloads[1..]);
    var stream := StreamOf(payloads)[..cut];
    if cut < |first| {
      TruncatedFrameIsRefused(payloads[0], cut);
      assert stream == first[..cut];
    } else {
      assert stream == first + others[..cut - |first|];
      FrameRoundTripExactly(payloads[0], others[..cut - |first|]);
      TruncatedStreamIsRefused(payloads[1..], cut - |first|);
    }
  }

  /** Every strict prefix of one frame is refused. */
  lemma TruncatedFrameIsRefused(payload: seq<Byte>, cut: nat)
    requires Writable(payload) && cut < |Frame(payload)|
    ensures Received(Frame(payload)[..cut]).0 == None
  {
    if cut >= 4 {
      SizeInvertsHeader(|payload|);
      assert Frame(payload)[..cut][..4] == Header(|payload|);
    }
  }

  // ----- Writers and readers -----

  /** A byte stream: a writer appends to it, until it has taken as much as it can; a reader eats from its front. */
  class ByteStream {
    var bytes: seq<Byte>
    var room: nat

    constructor (room: nat)
      ensures bytes == [] && this.room == room
    {
      bytes, this.room := [], room;
    }

    method Write(data: seq<Byte>) returns (ok: bool)
      modifies this
      ensures ok <==> |data| <= old(room)
      ensures var n := if ok then |data| else old(room);
              bytes == old(bytes) + data[..n] && room == old(room) - n
    {
      ok := |data| <= room;
      var n := if ok then |data| else room;
      bytes, room := bytes + data[..n], room - n;
    }

    /** io.ReadFull: fills the buffer, or fails having eaten what there was. */
    method ReadFull(buffer: array<Byte>) returns (ok: bool)
      modifies this`bytes, buffer
      ensures ok <==> buffer.Length <= |old(bytes)|
      ensures ok ==> buffer[..] == old(bytes)[..buffer.Length] && bytes == old(bytes)[buffer.Length..]
      ensures !ok ==> bytes == []
    {
      var i := 0;
      while i < buffer.Length && bytes != []
        invariant 0 <= i <= buffer.Length && i <= |old(bytes)|
        invariant bytes == old(bytes)[i..]
        invariant buffer[..i] == old(bytes)[..i]
        decreases |bytes|
      {
        buffer[i], bytes := bytes[0], bytes[1..];
        i := i + 1;
      }
      ok := i == buffer.Length;
    }
  }

  method PutUint32(header: array<Byte>, size: nat)
    requires header.Length == 4 && size < 0x1_0000_0000
    modifies header
    ensures header[..] == Header(size)
  {
    header[0] := size / 0x100_0000;
    header[1] := size / 0x1_0000 % 0x100;
    header[2] := size / 0x100 % 0x100;
    header[3] := size % 0x100;
  }

  /** Writes the whole frame or reports an error; a payload that is too big writes nothing. */
  method WriteFrame(w: ByteStream, payload: seq<Byte>) returns (ok: bool)
    modifies w
    ensures ok <==> |payload| <= 0x10_0000 && 4 + |payload| <= old(w.room)
    ensures ok ==> w.bytes == old(w.bytes) + Frame(payload)
    ensures !Writable(payload) ==> w.bytes == old(w.bytes)
    ensures Writable(payload) && !ok ==>
              exists cut :: 0 <= cut < |Frame(payload)| && w.bytes == old(w.bytes) + Frame(payload)[..cut]
  {
    if |payload| > MAX_FRAME_SIZE {
      return false;
    }
    ghost var room := w.room;
    ghost var before := w.bytes;
    var header := new Byte[4];
    PutUint32(header, |payload|);
    ok := w.Write(header[..]);
    if !ok {
      assert w.bytes == before + Frame(payload)[..room];
      return;
    }
    assert w.bytes == before + Header(|payload|);
    ok := w.Write(payload);
    if ok {
      assert w.bytes == before + Frame(payload);
    } else {
      assert w.bytes == before + Frame(payload)[..room];
    }
  }

  method ReadFrame(r: ByteStream) returns (payload: Option<seq<Byte>>)
    modifies r
    ensures (payload, r.bytes) == Received(old(r.bytes))
    ensures payload.Some? ==>
              0 < |payload.value| <= 0x10_0000 && old(r.bytes) == Frame(payload.value) + r.bytes
    ensures r.room == old(r.room)
  {
    var header := new Byte[4];
    var ok := r.ReadFull(header);
    if !ok {
      return None;
    }
    var size := Size(header[..]);
    if size == 0 || size > MAX_FRAME_SIZE {
      return None;
    }
    var buffer := new Byte[size];
    ok := r.ReadFull(buffer);
    if !ok {
      return None;
    }
    payload := Some(buffer[..]);
    assert old(r.bytes)[4..][..size] == old(r.bytes)[4..4 + size];
    assert old(r.bytes)[4..][size..] == old(r.bytes)[4 + size..];
    AcceptedExactly(old(r.bytes), payload.value, r.bytes);
  }

}
