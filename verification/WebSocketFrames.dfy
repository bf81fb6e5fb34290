/**
 The WebSocket client of `scripts/verify_deployment.py`: frames written by `send_text_frame`, and a
 buffered reader that must find them again however the network cuts the byte stream (sections 5.2 and
 5.3 of RFC 6455).
 */
module WebSocketFrames {
  import opened Collections

  // The flag arithmetic of the source is written out on numbers below 256: `0x80 | n` is `128 + n` for
  // `n < 128`, `b & 0x7F` is `b % 128`, `b & 0x0F` is `b % 16`, and `b & 0x80` is set when `b >= 128`.

  // ---------------------------------------------------------------- numbers and masks

  function Pow256(width: nat): nat {
    if width == 0 then 1 else 256 * Pow256(width - 1)
  }

  /** `struct.pack("!H", n)` and `struct.pack("!Q", n)`. */
  function BigEndian(n: nat, width: nat): (r: Bytes)
    requires n < Pow256(width)
    ensures |r| == width
  {
    if width == 0 then [] else BigEndian(n / 256, width - 1) + [n % 256]
  }

  function FromBigEndian(bytes: Bytes): nat {
    if bytes == [] then 0
    else FromBigEndian(bytes[..|bytes| - 1]) * 256 + bytes[|bytes| - 1]
  }

  lemma {:induction false} UnpackPacked(n: nat, width: nat)
    requires n < Pow256(width)
    ensures FromBigEndian(BigEndian(n, width)) == n
  {
    if width > 0 {
      UnpackPacked(n / 256, width - 1);
      var bytes := BigEndian(n, width);
      assert bytes[..|bytes| - 1] == BigEndian(n / 256, width - 1);
    }
  }

  /** Bitwise exclusive or of the lowest `bits` bits. */
  function XorBits(a: nat, b: nat, bits: nat): (r: nat)
    ensures r < Pow2(bits)
  {
    if bits == 0 then 0 else 2 * XorBits(a / 2, b / 2, bits - 1) + (if a % 2 == b % 2 then 0 else 1)
  }

  function Pow2(bits: nat): nat {
    if bits == 0 then 1 else 2 * Pow2(bits - 1)
  }

  function Xor(a: Byte, b: Byte): Byte {
    assert Pow2(8) == 256 by { assert Pow2(8) == 16 * Pow2(4); }
    XorBits(a, b, 8)
  }

  lemma {:induction false} XorBitsTwice(a: nat, b: nat, bits: nat)
    requires a < Pow2(bits)
    ensures XorBits(XorBits(a, b, bits), b, bits) == a
  {
    if bits > 0 {
      var once := XorBits(a, b, bits);
      assert once / 2 == XorBits(a / 2, b / 2, bits - 1);
      assert once % 2 == if a % 2 == b % 2 then 0 else 1;
      XorBitsTwice(a / 2, b / 2, bits - 1);
    }
  }

  lemma XorTwice(a: Byte, b: Byte)
    ensures Xor(Xor(a, b), b) == a
  {
    assert Pow2(8) == 256 by { assert Pow2(8) == 16 * Pow2(4); }
    XorBitsTwice(a, b, 8);
  }

  /** Section 5.3: each byte is combined with one of the four masking bytes in turn. */
  function Masked(payload: Bytes, mask: Bytes): (r: Bytes)
    requires |mask| == 4
    ensures |r| == |payload|
  {
    seq(|payload|, i requires 0 <= i < |payload| => Xor(payload[i], mask[i % 4]))
  }

  lemma MaskedTwice(payload: Bytes, mask: Bytes)
    requires |mask| == 4
    ensures Masked(Masked(payload, mask), mask) == payload
  {
    forall i | 0 <= i < |payload| ensures Masked(Masked(payload, mask), mask)[i] == payload[i] {
      XorTwice(payload[i], mask[i % 4]);
    }
  }

  // ---------------------------------------------------------------- writing

  /** The length field and what extends it, with the mask bit given. */
  function LengthField(n: nat, maskBit: Byte): Bytes
    requires n < Pow256(8) && (maskBit == 128 || maskBit == 0)
  {
    if n <= 125 then [maskBit + n]
    else if n <= 65535 then [maskBit + 126] + (SizeOfTwo(); BigEndian(n, 2))
    else [maskBit + 127] + BigEndian(n, 8)
  }

  lemma SizeOfTwo()
    ensures Pow256(2) == 65536 && Pow256(8) == 0x1_0000_0000_0000_0000
  {
    assert Pow256(8) == 256 * 256 * 256 * 256 * Pow256(4) by {
      assert Pow256(8) == 256 * Pow256(7) && Pow256(7) == 256 * Pow256(6);
      assert Pow256(6) == 256 * Pow256(5) && Pow256(5) == 256 * Pow256(4);
    }
    assert Pow256(4) == 256 * Pow256(3) && Pow256(3) == 256 * Pow256(2);
  }

  /** Any frame with a minimal length field: `first` holds FIN, the reserved bits and the opcode. */
  function Wire(first: Byte, mask: Option<Bytes>, payload: Bytes): Bytes
    requires |payload| < Pow256(8)
    requires mask.Some? ==> |mask.value| == 4
  {
    if mask.Some? then [first] + LengthField(|payload|, 128) + mask.value + Masked(payload, mask.value)
    else [first] + LengthField(|payload|, 0) + payload
  }

  /** `send_text_frame`, given the encoded text and the random mask. */
  function SendTextFrame(payload: Bytes, mask: Bytes): Bytes
    requires |payload| < Pow256(8) && |mask| == 4
  {
    var header :=
      if |payload| <= 125 then [129, 128 + |payload|]
      else if |payload| <= 65535 then [129, 128 + 126] + (SizeOfTwo(); BigEndian(|payload|, 2))
      else [129, 128 + 127] + BigEndian(|payload|, 8);
    header + mask + Masked(payload, mask)
  }

  // ---------------------------------------------------------------- reading

  datatype Read<+T> = Got(value: T, rest: Bytes) | Closed {
    predicate IsFailure() { Closed? }
    function PropagateFailure<U>(): Read<U> requires Closed? { Closed }
    function Extract(): (T, Bytes) requires Got? { (value, rest) }
  }

  datatype Frame = Frame(opcode: Byte, payload: Bytes)

  /** `size` bytes of a stream that then ends, or the failure of a stream that ends too early. */
  function Exactly(stream: Bytes, size: nat): Read<Bytes> {
    if size <= |stream| then Got(stream[..size], stream[size..]) else Closed
  }

  function LengthAt(stream: Bytes, short: nat): Read<nat> {
    if short == 126 then
      var (field, rest) :- Exactly(stream, 2);
      Got(FromBigEndian(field), rest)
    else if short == 127 then
      var (field, rest) :- Exactly(stream, 8);
      Got(FromBigEndian(field), rest)
    else Got(short, stream)
  }

  function FrameAt(stream: Bytes): Read<Frame> {
    var (head, r1) :- Exactly(stream, 2);
    var masked := head[1] >= 128;
    var (length, r2) :- LengthAt(r1, head[1] % 128);
    var (mask, r3) :- Exactly(r2, if masked then 4 else 0);
    var (payload, rest) :- Exactly(r3, length);
    Got(Frame(head[0] % 16, if masked then Masked(payload, mask) else payload), rest)
  }

  /** `count` calls of `read_frame` in a row. */
  function FramesAt(stream: Bytes, count: nat): Read<seq<Frame>> {
    if count == 0 then Got([], stream)
    else
      var (frame, rest) :- FrameAt(stream);
      var (frames, end) :- FramesAt(rest, count - 1);
      Got([frame] + frames, end)
  }

  // ---------------------------------------------------------------- the reader finds what was written

  lemma ExactOf(a: Bytes, b: Bytes)
    ensures Exactly(a + b, |a|) == Got(a, b)
  {
    assert (a + b)[..|a|] == a && (a + b)[|a|..] == b;
  }

  /** The first two bytes of a frame carry the opcode, the mask bit and the short length. */
  lemma HeadRead(first: Byte, n: nat, maskBit: Byte, tail: Bytes)
    requires n < Pow256(8) && (maskBit == 128 || maskBit == 0)
    ensures
      var stream := [first] + LengthField(n, maskBit) + tail;
      && |stream| >= 2 && stream[0] == first
      && (stream[1] >= 128 <==> maskBit == 128)
      && LengthAt(stream[2..], stream[1] % 128) == Got(n, tail)
  {
    hide Pow256, BigEndian, FromBigEndian;
    SizeOfTwo();
    var field := LengthField(n, maskBit);
    var stream := [first] + field + tail;
    assert stream[2..] == field[1..] + tail;
    if n <= 125 {
      assert stream[2..] == tail;
    } else if n <= 65535 {
      assert field[1..] == BigEndian(n, 2);
      UnpackPacked(n, 2);
      ExactOf(BigEndian(n, 2), tail);
    } else {
      assert field[1..] == BigEndian(n, 8);
      UnpackPacked(n, 8);
      ExactOf(BigEndian(n, 8), tail);
    }
  }

  /**
   Every frame with a minimal length field, masked or not, is read back with its opcode and payload,
   and the reader stops exactly at its end.
   */
  lemma FrameReadBack(first: Byte, mask: Option<Bytes>, payload: Bytes, tail: Bytes)
    requires |payload| < Pow256(8)
    requires mask.Some? ==> |mask.value| == 4
    ensures FrameAt(Wire(first, mask, payload) + tail) == Got(Frame(first % 16, payload), tail)
  {
    hide Pow256, LengthField, LengthAt, Masked;
    var n := |payload|;
    var stream := Wire(first, mask, payload) + tail;
    if mask.Some? {
      var body := Masked(payload, mask.value);
      assert stream == [first] + LengthField(n, 128) + (mask.value + (body + tail));
      HeadRead(first, n, 128, mask.value + (body + tail));
      ExactOf(mask.value, body + tail);
      ExactOf(body, tail);
      MaskedTwice(payload, mask.value);
    } else {
      assert stream == [first] + LengthField(n, 0) + (payload + tail);
      HeadRead(first, n, 0, payload + tail);
      ExactOf([], payload + tail);
      assert [] + (payload + tail) == payload + tail;
      ExactOf(payload, tail);
    }
  }

  lemma TextFrameIsWire(payload: Bytes, mask: Bytes)
    requires |payload| < Pow256(8) && |mask| == 4
    ensures SendTextFrame(payload, mask) == Wire(129, Some(mask), payload)
  {
  }

  /** What a client has sent after writing the payloads in order. */
  function Sent(payloads: seq<Bytes>, masks: seq<Bytes>): Bytes
    requires |masks| == |payloads|
    requires forall i :: 0 <= i < |payloads| ==> |payloads[i]| < Pow256(8) && |masks[i]| == 4
  {
    if payloads == [] then []
    else SendTextFrame(payloads[0], masks[0]) + Sent(payloads[1..], masks[1..])
  }

  function TextFrames(payloads: seq<Bytes>): seq<Frame> {
    seq(|payloads|, i requires 0 <= i < |payloads| => Frame(1, payloads[i]))
  }

  /** Any sequence of payloads, any masks, anything after them: the same payloads, as text, in order. */
  lemma {:induction false} TextReadBack(payloads: seq<Bytes>, masks: seq<Bytes>, tail: Bytes)
    requires |masks| == |payloads|
    requires forall i :: 0 <= i < |payloads| ==> |payloads[i]| < Pow256(8) && |masks[i]| == 4
    ensures FramesAt(Sent(payloads, masks) + tail, |payloads|) == Got(TextFrames(payloads), tail)
  {
    hide Pow256, Wire, SendTextFrame, FrameAt;
    if payloads == [] {
      assert Sent(payloads, masks) + tail == tail;
    } else {
      var later := Sent(payloads[1..], masks[1..]) + tail;
      TextReadBack(payloads[1..], masks[1..], tail);
      TextFrameIsWire(payloads[0], masks[0]);
      FrameReadBack(129, Some(masks[0]), payloads[0], later);
      assert Sent(payloads, masks) + tail == Wire(129, Some(masks[0]), payloads[0]) + later;
      assert TextFrames(payloads) == [Frame(1, payloads[0])] + TextFrames(payloads[1..]);
    }
  }

  /** More bytes never change a frame that is already complete: why the cuts of the stream cannot matter. */
  lemma CompleteFrameIsStable(stream: Bytes, more: Bytes)
    requires FrameAt(stream).Got?
    ensures FrameAt(stream + more) == Got(FrameAt(stream).value, FrameAt(stream).rest + more)
  {
    hide LengthAt, Masked;
    ExactIsStable(stream, 2, more);
    var (head, r1) := Exactly(stream, 2).Extract();
    var short := head[1] % 128;
    LengthIsStable(r1, short, more);
    var (length, r2) := LengthAt(r1, short).Extract();
    var maskSize := if head[1] >= 128 then 4 else 0;
    ExactIsStable(r2, maskSize, more);
    var (mask, r3) := Exactly(r2, maskSize).Extract();
    ExactIsStable(r3, length, more);
  }

  lemma ExactIsStable(stream: Bytes, size: nat, more: Bytes)
    requires Exactly(stream, size).Got?
    ensures Exactly(stream + more, size) == Got(Exactly(stream, size).value, Exactly(stream, size).rest + more)
  {
    assert (stream + more)[..size] == stream[..size];
    assert (stream + more)[size..] == stream[size..] + more;
  }

  lemma LengthIsStable(stream: Bytes, short: nat, more: Bytes)
    requires LengthAt(stream, short).Got?
    ensures LengthAt(stream + more, short) == Got(LengthAt(stream, short).value, LengthAt(stream, short).rest + more)
  {
    if short == 126 {
      ExactIsStable(stream, 2, more);
    } else if short == 127 {
      ExactIsStable(stream, 8, more);
    }
  }

  /** Two clients that sent the same bytes sent the same payloads, whatever their masks. */
  lemma SentDeterminesPayloads(p: seq<Bytes>, m: seq<Bytes>, q: seq<Bytes>, k: seq<Bytes>)
    requires |p| == |m| && |q| == |k| && |p| == |q|
    requires forall i :: 0 <= i < |p| ==> |p[i]| < Pow256(8) && |m[i]| == 4
    requires forall i :: 0 <= i < |q| ==> |q[i]| < Pow256(8) && |k[i]| == 4
    requires Sent(p, m) == Sent(q, k)
    ensures p == q
  {
    TextReadBack(p, m, []);
    TextReadBack(q, k, []);
    assert TextFrames(p) == TextFrames(q);
    forall i | 0 <= i < |p| ensures p[i] == q[i] {
      assert TextFrames(p)[i] == TextFrames(q)[i];
    }
  }

  /** Section 5.2 wants the shortest length field and a clear top bit in the 64-bit one. */
  lemma LengthFieldConforms(n: nat)
    requires n < Pow256(8)
    ensures |LengthField(n, 128)| == (if n <= 125 then 1 else if n <= 65535 then 3 else 9)
    ensures n > 65535 ==> (LengthField(n, 128)[1] < 128 <==> n < 0x8000_0000_0000_0000)
  {
    hide Pow256;
    SizeOfTwo();
    if n > 65535 {
      FirstByteSmall(n, 8);
      SizeOfSeven();
    }
  }

  lemma SizeOfSeven()
    ensures Pow256(7) == 0x100_0000_0000_0000
  {
    SizeOfTwo();
  }

  lemma {:induction false} FirstByteSmall(n: nat, width: nat)
    requires width > 0 && n < Pow256(width)
    ensures BigEndian(n, width)[0] < 128 <==> n < 128 * Pow256(width - 1)
  {
    if width > 1 {
      FirstByteSmall(n / 256, width - 1);
      assert BigEndian(n, width)[0] == BigEndian(n / 256, width - 1)[0];
    } else {
      assert BigEndian(n, 1) == BigEndian(n / 256, 0) + [n % 256];
    }
  }

  // ---------------------------------------------------------------- the buffered socket

  /** Both halves of a connection's unread bytes: what `recv` will still deliver and what it delivered. */
  class BufferedSocket {
    var incoming: Bytes
    var buffer: Bytes

    constructor (incoming: Bytes, initial: Bytes)
      ensures Stream() == initial + incoming
    {
      this.incoming := incoming;
      this.buffer := initial;
    }

    /** Everything not yet handed to a caller, however it is cut. */
    function Stream(): Bytes
      reads this
    {
      buffer + incoming
    }

    /** The network hands over any non-empty piece of at most `size` bytes, and nothing at the end. */
    method Recv(size: nat) returns (chunk: Bytes)
      requires size > 0
      modifies this`incoming
      ensures |chunk| <= size && old(incoming) == chunk + incoming
      ensures chunk == [] <==> old(incoming) == []
    {
      if incoming == [] {
        return [];
      }
      var cut :| 0 < cut <= size && cut <= |incoming| by {
        assert 0 < 1 <= size;
      }
      chunk := incoming[..cut];
      incoming := incoming[cut..];
    }

    method ReadExact(size: nat) returns (data: Option<Bytes>)
      modifies this
      ensures match Exactly(old(Stream()), size)
              case Got(value, rest) => data == Some(value) && Stream() == rest
              case Closed => data == None && Stream() == old(Stream()) && incoming == []
    {
      while |buffer| < size
        invariant Stream() == old(Stream())
        decreases |incoming|, size - |buffer|
      {
        var chunk := Recv(if size - |buffer| < 4096 then 4096 else size - |buffer|);
        if chunk == [] {
          assert Stream() == buffer;
          return None;
        }
        ghost var before := buffer;
        buffer := buffer + chunk;
        assert before + (chunk + incoming) == buffer + incoming;
      }
      data := Some(buffer[..size]);
      assert Stream()[..size] == buffer[..size] && Stream()[size..] == buffer[size..] + incoming;
      buffer := buffer[size..];
    }

    method ReadFrame() returns (frame: Option<Frame>)
      modifies this
      ensures match FrameAt(old(Stream()))
              case Got(value, rest) => frame == Some(value) && Stream() == rest
              case Closed => frame == None
    {
      var head := ReadExact(2);
      if head.None? { return None; }
      var opcode := head.value[0] % 16;
      var masked := head.value[1] >= 128;
      var length := head.value[1] % 128;
      if length == 126 {
        var field := ReadExact(2);
        if field.None? { return None; }
        length := FromBigEndian(field.value);
      } else if length == 127 {
        var field := ReadExact(8);
        if field.None? { return None; }
        length := FromBigEndian(field.value);
      }
      var mask := ReadExact(if masked then 4 else 0);
      if mask.None? { return None; }
      var payload := ReadExact(length);
      if payload.None? { return None; }
      frame := Some(Frame(opcode, if mask.value != [] then Masked(payload.value, mask.value) else payload.value));
    }

    /** `read_frame` again and again. */
    method ReadFrames(count: nat) returns (frames: Option<seq<Frame>>)
      modifies this
      ensures match FramesAt(old(Stream()), count)
              case Got(value, rest) => frames == Some(value) && Stream() == rest
              case Closed => frames == None
    {
      hide FrameAt;
      ghost var all := Stream();
      var read := [];
      PrependNothing(FramesAt(all, count));
      for i := 0 to count
        invariant FramesAt(all, count) == Prepend(read, FramesAt(Stream(), count - i))
      {
        var frame := ReadFrame();
        if frame.None? {
          return None;
        }
        PrependOne(read, frame.value, FramesAt(Stream(), count - i - 1));
        read := read + [frame.value];
      }
      assert read + [] == read;
      frames := Some(read);
    }

    /** Whatever pieces the network delivers, reading as often as was sent returns what was sent. */
    method ReadTextFrames(count: nat, ghost payloads: seq<Bytes>, ghost masks: seq<Bytes>, ghost tail: Bytes)
      returns (frames: Option<seq<Frame>>)
      requires count == |payloads| == |masks|
      requires forall i :: 0 <= i < |payloads| ==> |payloads[i]| < Pow256(8) && |masks[i]| == 4
      requires Stream() == Sent(payloads, masks) + tail
      modifies this
      ensures frames == Some(TextFrames(payloads)) && Stream() == tail
    {
      hide Pow256, Sent, TextFrames;
      TextReadBack(payloads, masks, tail);
      frames := ReadFrames(count);
    }
  }

  function Prepend(read: seq<Frame>, later: Read<seq<Frame>>): Read<seq<Frame>> {
    match later
    case Got(frames, rest) => Got(read + frames, rest)
    case Closed => Closed
  }

  lemma PrependNothing(later: Read<seq<Frame>>)
    ensures Prepend([], later) == later
  {
    if later.Got? {
      assert [] + later.value == later.value;
    }
  }

  lemma PrependOne(read: seq<Frame>, frame: Frame, later: Read<seq<Frame>>)
    ensures Prepend(read, Prepend([frame], later)) == Prepend(read + [frame], later)
  {
    if later.Got? {
      assert read + ([frame] + later.value) == read + [frame] + later.value;
    }
  }

  // ---------------------------------------------------------------- waiting for the pong

  datatype Outcome = Pong | PeerClosed | NoPong | Dropped

  /** What the first `tries` frames of a stream amount to; `isPong` judges a decoded text payload. */
  function Await(stream: Bytes, tries: nat, isPong: Bytes -> bool): Outcome {
    if tries == 0 then NoPong
    else
      match FrameAt(stream)
      case Closed => Dropped
      case Got(frame, rest) =>
        if frame.opcode == 8 then PeerClosed
        else if frame.opcode == 1 && isPong(frame.payload) then Pong
        else Await(rest, tries - 1, isPong)
  }

  /** The loop of `check_websocket`. */
  method AwaitPong(sock: BufferedSocket, isPong: Bytes -> bool) returns (outcome: Outcome)
    modifies sock
    ensures outcome == Await(old(sock.Stream()), 8, isPong)
  {
    hide FrameAt;
    ghost var all := sock.Stream();
    for i := 0 to 8
      invariant Await(all, 8, isPong) == Await(sock.Stream(), 8 - i, isPong)
    {
      var frame := sock.ReadFrame();
      if frame.None? {
        return Dropped;
      }
      if frame.value.opcode == 8 {
        return PeerClosed;
      }
      if frame.value.opcode == 1 && isPong(frame.value.payload) {
        return Pong;
      }
    }
    outcome := NoPong;
  }

  /** Frames a server may send: unmasked, with any FIN and reserved bits. */
  function Served(firsts: Bytes, payloads: seq<Bytes>): Bytes
    requires |firsts| == |payloads| && forall i :: 0 <= i < |payloads| ==> |payloads[i]| < Pow256(8)
  {
    if payloads == [] then []
    else Wire(firsts[0], None, payloads[0]) + Served(firsts[1..], payloads[1..])
  }

  /** A pong among the first frames is found when no close frame comes before it, whatever follows. */
  lemma {:induction false} PongIsFound(firsts: Bytes, payloads: seq<Bytes>, at: nat, tail: Bytes, tries: nat, isPong: Bytes -> bool)
    requires |firsts| == |payloads| && forall i :: 0 <= i < |payloads| ==> |payloads[i]| < Pow256(8)
    requires at < |payloads| && at < tries
    requires firsts[at] % 16 == 1 && isPong(payloads[at])
    requires forall i :: 0 <= i < at ==> firsts[i] % 16 != 8
    ensures Await(Served(firsts, payloads) + tail, tries, isPong) == Pong
  {
    hide Pow256, Wire, FrameAt;
    var later := Served(firsts[1..], payloads[1..]) + tail;
    assert Served(firsts, payloads) + tail == Wire(firsts[0], None, payloads[0]) + later;
    FrameReadBack(firsts[0], None, payloads[0], later);
    if at > 0 {
      PongIsFound(firsts[1..], payloads[1..], at - 1, tail, tries - 1, isPong);
    }
  }

  // ---------------------------------------------------------------- bits and digits

  function Bit(v: nat, k: nat): bool {
    if k == 0 then v % 2 == 1 else Bit(v / 2, k - 1)
  }

  /** Exclusive or: a bit of the result is set exactly if it is set in one of the two bytes only. */
  lemma XorIsBitwise(a: Byte, b: Byte, k: nat)
    requires k < 8
    ensures Bit(Xor(a, b), k) <==> Bit(a, k) != Bit(b, k)
  {
    XorBitAt(a, b, 8, k);
  }

  lemma {:induction false} XorBitAt(a: nat, b: nat, bits: nat, k: nat)
    requires k < bits
    ensures Bit(XorBits(a, b, bits), k) <==> Bit(a, k) != Bit(b, k)
  {
    var r := XorBits(a, b, bits);
    assert r / 2 == XorBits(a / 2, b / 2, bits - 1);
    if k > 0 {
      XorBitAt(a / 2, b / 2, bits - 1, k - 1);
    }
  }

  /** The `k`-th byte of a number, counted from the least significant one. */
  function Digit(n: nat, k: nat): Byte {
    if k == 0 then n % 256 else Digit(n / 256, k - 1)
  }

  /** Network order: the most significant byte first. */
  lemma {:induction false} BigEndianDigits(n: nat, width: nat, i: nat)
    requires n < Pow256(width) && i < width
    ensures BigEndian(n, width)[i] == Digit(n, width - 1 - i)
  {
    if i < width - 1 {
      BigEndianDigits(n / 256, width - 1, i);
    }
  }

  /** Where everything is in a frame that was sent: the header, then the mask, then the combined bytes. */
  lemma SentLayout(payload: Bytes, mask: Bytes, i: nat)
    requires |payload| < Pow256(8) && |mask| == 4 && i < |payload|
    ensures
      var head := if |payload| <= 125 then 2 else if |payload| <= 65535 then 4 else 10;
      var frame := SendTextFrame(payload, mask);
      && |frame| == head + 4 + |payload| && frame[0] == 0x81
      && frame[1] == 0x80 + (if head == 2 then |payload| else if head == 4 then 126 else 127)
      && frame[head..head + 4] == mask
      && frame[head + 4 + i] == Xor(payload[i], mask[i % 4])
  {
    hide Pow256, Xor;
  }
}
