// SAPIENT TCP framing: a 4-byte little-endian length, then the payload, over a growing buffer.
// Protobuf parsing is a parameter: a partial function from payload bytes to messages.

module Codec {
  import opened Base
  import opened Sapient

  newtype Byte = b: int | 0 <= b < 256

  type Bytes = seq<Byte>

  const MAX_FRAME_BYTES: nat := 16 * 1024 * 1024
  const U32_MODULUS: nat := 0x1_0000_0000

  // ---- the length prefix ----

  function Le32(n: nat): (bs: Bytes)
    requires n < U32_MODULUS
    ensures |bs| == 4
  {
    [(n % 256) as Byte, (n / 256 % 256) as Byte, (n / 65536 % 256) as Byte, (n / 16777216) as Byte]
  }

  function FromLe32(b0: Byte, b1: Byte, b2: Byte, b3: Byte): nat {
    b0 as nat + 256 * b1 as nat + 65536 * b2 as nat + 16777216 * b3 as nat
  }

  function PrefixOf(src: Bytes): nat
    requires |src| >= 4
  {
    FromLe32(src[0], src[1], src[2], src[3])
  }

  lemma Le32RoundTrip(n: nat)
    requires n < U32_MODULUS
    ensures PrefixOf(Le32(n)) == n
  {
    var q1 := n / 256;
    var q2 := q1 / 256;
    assert n / 65536 == q2 && n / 16777216 == q2 / 256;
  }

  // ---- encoding ----

  /** `payload.len() as u32` keeps the low 32 bits of the length. */
  function Frame(payload: Bytes): Bytes {
    Le32(|payload| % U32_MODULUS) + payload
  }

  function Stream(payloads: seq<Bytes>): Bytes {
    if payloads == [] then [] else Frame(payloads[0]) + Stream(payloads[1..])
  }

  // ---- decoding ----

  datatype Head =
    | NeedMore
    | TooLarge(size: nat)
    | Complete(payload: Bytes, rest: Bytes)

  /** What `decode` finds at the head of the buffer. */
  function HeadOf(src: Bytes): Head {
    if |src| < 4 then NeedMore
    else
      var len := PrefixOf(src);
      if len > MAX_FRAME_BYTES then TooLarge(len)
      else if |src| < 4 + len then NeedMore
      else Complete(src[4..4 + len], src[4 + len..])
  }

  /** Each success shrinks the buffer by 4 + len, and nothing else is lost or made up. */
  lemma SuccessConsumesOneFrame(src: Bytes)
    requires HeadOf(src).Complete?
    ensures |HeadOf(src).payload| <= MAX_FRAME_BYTES
    ensures src == Frame(HeadOf(src).payload) + HeadOf(src).rest
    ensures |HeadOf(src).rest| + 4 + |HeadOf(src).payload| == |src|
  {
    hide Le32, FromLe32;
    var len, h := PrefixOf(src), HeadOf(src);
    PrefixDetermines(src[0], src[1], src[2], src[3]);
    assert src[..4] == [src[0], src[1], src[2], src[3]] == Le32(len);
    assert Frame(h.payload) == src[..4] + src[4..4 + len];
    assert src == (src[..4] + src[4..4 + len]) + src[4 + len..];
  }

  lemma PrefixDetermines(b0: Byte, b1: Byte, b2: Byte, b3: Byte)
    ensures FromLe32(b0, b1, b2, b3) < U32_MODULUS
    ensures Le32(FromLe32(b0, b1, b2, b3)) == [b0, b1, b2, b3]
  {
    var q2 := b2 as nat + 256 * b3 as nat;
    var q1 := b1 as nat + 256 * q2;
    var n := FromLe32(b0, b1, b2, b3);
    assert n == b0 as nat + 256 * q1;
    Digit(b0 as nat, q1);
    Digit(b1 as nat, q2);
    Digit(b2 as nat, b3 as nat);
    assert n / 65536 == q1 / 256 && n / 16777216 == q2 / 256;
  }

  lemma Digit(d: nat, q: nat)
    requires d < 256
    ensures (d + 256 * q) % 256 == d && (d + 256 * q) / 256 == q
  {
  }

  /** Appended bytes never change a complete frame or a refused one. */
  lemma AppendKeepsHead(src: Bytes, more: Bytes)
    ensures HeadOf(src).Complete? ==>
      HeadOf(src + more) == Complete(HeadOf(src).payload, HeadOf(src).rest + more)
    ensures HeadOf(src).TooLarge? ==> HeadOf(src + more) == HeadOf(src)
  {
    if |src| >= 4 {
      var len := PrefixOf(src);
      if |src| >= 4 + len {
        assert (src + more)[4..4 + len] == src[4..4 + len];
        assert (src + more)[4 + len..] == src[4 + len..] + more;
      }
    }
  }

  /** A frame survives one hop exactly when its payload fits the limit; beyond 4 GiB the prefix wraps and
      the receiver reads a different payload or refuses the frame. */
  lemma RoundTripIffFits(payload: Bytes, rest: Bytes)
    ensures HeadOf(Frame(payload) + rest) == Complete(payload, rest) <==> |payload| <= 16_777_216
  {
    PrefixOfFrame(payload, rest);
    hide Frame, PrefixOf;
    var src, n := Frame(payload) + rest, |payload| % U32_MODULUS;
    if |payload| <= MAX_FRAME_BYTES {
      assert n == |payload|;
      assert Frame(payload)[4..] + rest == src[4..];
    }
  }

  lemma PrefixOfFrame(payload: Bytes, rest: Bytes)
    ensures PrefixOf(Frame(payload) + rest) == |payload| % U32_MODULUS
    ensures |Frame(payload)| == 4 + |payload| && Frame(payload)[4..] == payload
  {
    hide FromLe32, Le32;
    var n := |payload| % U32_MODULUS;
    Le32RoundTrip(n);
    assert (Frame(payload) + rest)[..4] == Le32(n);
  }

  // ---- the wire format in numbers ----

  /** A frame is the payload's length, least significant byte first, and the payload. */
  lemma FrameLayout(payload: Bytes)
    ensures var f := Frame(payload);
      |f| == 4 + |payload| && f[4..] == payload &&
      f[0] as nat + 0x100 * f[1] as nat + 0x1_0000 * f[2] as nat + 0x100_0000 * f[3] as nat
        == |payload| % 0x1_0000_0000
  {
    var n := |payload| % 0x1_0000_0000;
    assert Le32(n) == Frame(payload)[..4];
    Le32RoundTrip(n);
    assert Frame(payload)[4..] == payload;
  }

  function Announced(src: Bytes): nat
    requires |src| >= 4
  {
    src[0] as nat + 0x100 * src[1] as nat + 0x1_0000 * src[2] as nat + 0x100_0000 * src[3] as nat
  }

  /** What the decoder does with a buffer, by the length its first four bytes announce: wait for four bytes,
      refuse more than 16 MiB, wait for the whole payload, or take it. */
  lemma HeadMeans(src: Bytes)
    ensures |src| < 4 ==> HeadOf(src) == NeedMore
    ensures |src| >= 4 && Announced(src) > 16_777_216 ==> HeadOf(src) == TooLarge(Announced(src))
    ensures |src| >= 4 && Announced(src) <= 16_777_216 && |src| < 4 + Announced(src) ==> HeadOf(src) == NeedMore
    ensures |src| >= 4 && Announced(src) <= 16_777_216 && |src| >= 4 + Announced(src) ==>
      HeadOf(src) == Complete(src[4..4 + Announced(src)], src[4 + Announced(src)..])
  {
  }

  // ---- a reader: append a chunk, then decode until nothing more comes out ----

  function Drain(src: Bytes): (r: (seq<Bytes>, Bytes))
    decreases |src|
  {
    var h := HeadOf(src);
    if h.Complete? then
      var (more, rest) := Drain(h.rest);
      ([h.payload] + more, rest)
    else ([], src)
  }

  /** The payloads read and the bytes still buffered after the chunks have arrived one by one. */
  function Feed(buffered: Bytes, chunks: seq<Bytes>): (seq<Bytes>, Bytes)
    decreases |chunks|
  {
    if chunks == [] then ([], buffered)
    else
      var (now, left) := Drain(buffered + chunks[0]);
      var (later, end) := Feed(left, chunks[1..]);
      (now + later, end)
  }

  function Joined(chunks: seq<Bytes>): Bytes {
    if chunks == [] then [] else chunks[0] + Joined(chunks[1..])
  }

  lemma {:induction false} DrainSplits(src: Bytes, more: Bytes)
    ensures Drain(src + more).0 == Drain(src).0 + Drain(Drain(src).1 + more).0
    ensures Drain(src + more).1 == Drain(Drain(src).1 + more).1
    decreases |src|
  {
    var h := HeadOf(src);
    AppendKeepsHead(src, more);
    if h.Complete? {
      DrainSplits(h.rest, more);
    }
  }

  lemma {:induction false} DrainLeavesStuck(src: Bytes)
    ensures !HeadOf(Drain(src).1).Complete?
    decreases |src|
  {
    if HeadOf(src).Complete? { DrainLeavesStuck(HeadOf(src).rest); }
  }

  /** Whatever the bytes, well formed or not, how they are cut into chunks makes no difference. */
  lemma {:induction false} FragmentationIsInvisible(buffered: Bytes, chunks: seq<Bytes>)
    requires !HeadOf(buffered).Complete?
    ensures Feed(buffered, chunks) == Drain(buffered + Joined(chunks))
    decreases |chunks|
  {
    hide HeadOf, Drain;
    if chunks == [] {
      DrainStuck(buffered);
      assert buffered + [] == buffered;
    } else {
      var first, rest := buffered + chunks[0], Joined(chunks[1..]);
      DrainLeavesStuck(first);
      FragmentationIsInvisible(Drain(first).1, chunks[1..]);
      DrainSplits(first, rest);
      assert buffered + (chunks[0] + rest) == first + rest;
    }
  }

  lemma {:induction false} DrainStuck(src: Bytes)
    requires !HeadOf(src).Complete?
    ensures Drain(src) == ([], src)
  {
  }

  lemma EmptyNeedsMore()
    ensures HeadOf([]) == NeedMore
  {
  }

  lemma {:induction false} DrainStream(payloads: seq<Bytes>)
    requires forall p :: p in payloads ==> |p| <= MAX_FRAME_BYTES
    ensures Drain(Stream(payloads)) == (payloads, [])
  {
    hide HeadOf, Frame;
    if payloads == [] {
      EmptyNeedsMore();
    } else {
      RoundTripIffFits(payloads[0], Stream(payloads[1..]));
      DrainStream(payloads[1..]);
      assert HeadOf(Stream(payloads)) == Complete(payloads[0], Stream(payloads[1..]));
      assert payloads == [payloads[0]] + payloads[1..];
    }
  }

  /** Any payloads within the limit, encoded back to back and delivered in any chunks, come out in order
      with nothing left over. */
  lemma {:induction false} StreamSurvivesAnyChunking(payloads: seq<Bytes>, chunks: seq<Bytes>)
    requires forall p :: p in payloads ==> |p| <= MAX_FRAME_BYTES
    requires Joined(chunks) == Stream(payloads)
    ensures Feed([], chunks) == (payloads, [])
  {
    EmptyNeedsMore();
    FragmentationIsInvisible([], chunks);
    assert [] + Joined(chunks) == Stream(payloads);
    DrainStream(payloads);
  }

  // ---- a reader that parses, and stops at the first error ----

  datatype Outcome = Waiting(left: Bytes) | Failed(error: SapientError)

  function After<M>(first: seq<M>, r: (seq<M>, Outcome)): (seq<M>, Outcome) { (first + r.0, r.1) }

  lemma AfterAfter<M>(a: seq<M>, b: seq<M>, r: (seq<M>, Outcome))
    ensures After(a, After(b, r)) == After(a + b, r)
    ensures After([], r) == r
  {
    assert a + (b + r.0) == (a + b) + r.0 && [] + r.0 == r.0;
  }

  /** The messages decoded from the buffer until it runs out or an error ends the connection. */
  function ReadAll<M>(parse: Bytes -> Option<M>, src: Bytes): (seq<M>, Outcome)
    decreases |src|
  {
    match HeadOf(src)
    case NeedMore => ([], Waiting(src))
    case TooLarge(n) => ([], Failed(FrameTooLarge(n, MAX_FRAME_BYTES)))
    case Complete(payload, rest) =>
      match parse(payload)
      case None => ([], Failed(DecodeError))
      case Some(m) =>
        After([m], ReadAll(parse, rest))
  }

  /** The same over chunks that arrive one by one; nothing is read after an error. */
  function ReadChunks<M>(parse: Bytes -> Option<M>, buffered: Bytes, chunks: seq<Bytes>): (seq<M>, Outcome)
    decreases |chunks|
  {
    if chunks == [] then ([], Waiting(buffered))
    else
      var (now, end) := ReadAll(parse, buffered + chunks[0]);
      if end.Failed? then (now, end)
      else
        After(now, ReadChunks(parse, end.left, chunks[1..]))
  }

  lemma {:induction false} ReadSplits<M>(parse: Bytes -> Option<M>, src: Bytes, more: Bytes)
    ensures var r := ReadAll(parse, src);
      if r.1.Failed? then ReadAll(parse, src + more) == r
      else ReadAll(parse, src + more) == After(r.0, ReadAll(parse, r.1.left + more))
    decreases |src|
  {
    AppendKeepsHead(src, more);
    var h := HeadOf(src);
    if h.Complete? {
      if parse(h.payload).Some? {
        ReadSplits(parse, h.rest, more);
        var r := ReadAll(parse, h.rest);
        if r.1.Waiting? { AfterAfter([parse(h.payload).value], r.0, ReadAll(parse, r.1.left + more)); }
      }
    } else {
      AfterAfter([], [], ReadAll(parse, src + more));
    }
    hide HeadOf, After;
  }

  lemma {:induction false} ReadLeavesNeed<M>(parse: Bytes -> Option<M>, src: Bytes)
    ensures var end := ReadAll(parse, src).1; end.Waiting? ==> HeadOf(end.left).NeedMore?
    decreases |src|
  {
    var h := HeadOf(src);
    if h.Complete? && parse(h.payload).Some? { ReadLeavesNeed(parse, h.rest); }
  }

  /** For any bytes, valid or not: a reader that stops at the first error gets the same messages and ends the
      same way, with the same error or the same bytes left, however the bytes are cut into chunks. */
  lemma {:induction false} ChunkingChangesNothingRead<M>(parse: Bytes -> Option<M>, buffered: Bytes, chunks: seq<Bytes>)
    requires HeadOf(buffered).NeedMore?
    ensures ReadChunks(parse, buffered, chunks) == ReadAll(parse, buffered + Joined(chunks))
    decreases |chunks|
  {
    if chunks == [] {
      assert buffered + [] == buffered;
    } else {
      var first, rest := buffered + chunks[0], Joined(chunks[1..]);
      ReadSplits(parse, first, rest);
      ReadLeavesNeed(parse, first);
      hide HeadOf, ReadAll, After;
      var end := ReadAll(parse, first).1;
      if end.Waiting? { ChunkingChangesNothingRead(parse, end.left, chunks[1..]); }
      assert buffered + (chunks[0] + rest) == first + rest;
    }
  }

  function Serialised<M>(serialise: M -> Bytes, msgs: seq<M>): seq<Bytes> {
    if msgs == [] then [] else [serialise(msgs[0])] + Serialised(serialise, msgs[1..])
  }

  lemma {:induction false} ReadStream<M>(serialise: M -> Bytes, parse: Bytes -> Option<M>, msgs: seq<M>)
    requires forall m :: m in msgs ==> parse(serialise(m)) == Some(m) && |serialise(m)| <= MAX_FRAME_BYTES
    ensures ReadAll(parse, Stream(Serialised(serialise, msgs))) == (msgs, Waiting([]))
  {
    hide HeadOf, Frame;
    EmptyNeedsMore();
    if msgs != [] {
      var payloads := Serialised(serialise, msgs);
      assert payloads[1..] == Serialised(serialise, msgs[1..]);
      RoundTripIffFits(payloads[0], Stream(payloads[1..]));
      ReadStream(serialise, parse, msgs[1..]);
      assert msgs == [msgs[0]] + msgs[1..];
    }
  }

  /** Any messages that survive serialisation and fit the limit, encoded back to back and delivered in any
      chunks, are read in order with nothing left over. */
  lemma {:induction false} MessagesSurviveAnyChunking<M>(
    serialise: M -> Bytes, parse: Bytes -> Option<M>, msgs: seq<M>, chunks: seq<Bytes>)
    requires forall m :: m in msgs ==> parse(serialise(m)) == Some(m) && |serialise(m)| <= MAX_FRAME_BYTES
    requires Joined(chunks) == Stream(Serialised(serialise, msgs))
    ensures ReadChunks(parse, [], chunks) == (msgs, Waiting([]))
  {
    EmptyNeedsMore();
    ChunkingChangesNothingRead(parse, [], chunks);
    assert [] + Joined(chunks) == Joined(chunks);
    ReadStream(serialise, parse, msgs);
  }

  // ---- the codec over a mutable buffer ----

  class BytesMut {
    var bytes: Bytes

    constructor ()
      ensures bytes == []
    {
      bytes := [];
    }
  }

  /** Both encoders: a message is serialised first, bytes are taken as they are. */
  method Encode(payload: Bytes, dst: BytesMut)
    modifies dst
    ensures dst.bytes == old(dst.bytes) + Frame(payload)
  {
    var len := |payload| % U32_MODULUS;
    dst.bytes := dst.bytes + Le32(len);
    dst.bytes := dst.bytes + payload;
    assert dst.bytes == old(dst.bytes) + (Le32(len) + payload);
  }

  /** A `None` and an oversized prefix consume nothing; a payload that does not parse is consumed. */
  method Decode<M>(parse: Bytes -> Option<M>, src: BytesMut) returns (r: Result<Option<M>, SapientError>)
    modifies src
    ensures match HeadOf(old(src.bytes))
      case NeedMore => r == Ok(None) && src.bytes == old(src.bytes)
      case TooLarge(n) => r == Err(FrameTooLarge(n, MAX_FRAME_BYTES)) && src.bytes == old(src.bytes)
      case Complete(payload, rest) =>
        src.bytes == rest &&
        r == if parse(payload).Some? then Ok(parse(payload)) else Err(DecodeError)
  {
    if |src.bytes| < 4 {
      return Ok(None);
    }
    var len := FromLe32(src.bytes[0], src.bytes[1], src.bytes[2], src.bytes[3]);
    if len > MAX_FRAME_BYTES {
      return Err(FrameTooLarge(len, MAX_FRAME_BYTES));
    }
    if |src.bytes| < 4 + len {
      return Ok(None);
    }
    src.bytes := src.bytes[4..];
    var payload := src.bytes[..len];
    src.bytes := src.bytes[len..];
    assert payload == old(src.bytes)[4..4 + len] && src.bytes == old(src.bytes)[4 + len..];
    var msg := parse(payload);
    r := if msg.Some? then Ok(msg) else Err(DecodeError);
  }
}
