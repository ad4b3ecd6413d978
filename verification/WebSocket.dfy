/**
 WebSocket framing (sections 5.2 and 5.3 of RFC 6455): the masking client printer, the
 unmasked server printer, and a reader over a socket that delivers bytes in chunks of any size.
 */
module WebSocket {
  import opened Common

  type Bytes = seq<byte>

  // ----- numbers on the wire -----

  /** `n` in network byte order, in `width` bytes; higher digits are dropped. */
  function BigEndian(n: nat, width: nat): (b: Bytes)
    ensures |b| == width
    decreases width
  {
    if width == 0 then [] else BigEndian(n / 256, width - 1) + [n % 256]
  }

  function FromBigEndian(b: Bytes): nat {
    if b == [] then 0 else FromBigEndian(b[..|b| - 1]) * 256 + b[|b| - 1]
  }

  function Power256(width: nat): (p: nat)
    ensures p >= 1
  {
    if width == 0 then 1 else 256 * Power256(width - 1)
  }

  lemma {:induction false} BigEndianRoundTrip(n: nat, width: nat)
    requires n < Power256(width)
    ensures FromBigEndian(BigEndian(n, width)) == n
    decreases width
  {
    if width > 0 {
      BigEndianRoundTrip(n / 256, width - 1);
      var b := BigEndian(n, width);
      assert b[..|b| - 1] == BigEndian(n / 256, width - 1);
    }
  }

  // ----- printing -----

  const MASK_BIT: byte := 0x80

  /** The number of bytes of the extended length that follows a seven-bit length code. */
  function ExtendedLength(code: byte): nat {
    if code == 126 then 2 else if code == 127 then 8 else 0
  }

  /** The seven-bit length code of a payload, and the bytes after it. */
  function LengthCode(length: nat): byte {
    if length < 126 then length else if length <= 0xFFFF then 126 else 127
  }

  function LengthTail(length: nat): Bytes {
    BigEndian(length, ExtendedLength(LengthCode(length)))
  }

  /** The payload-length part of a frame; `maskBit` is MASK_BIT or 0, and is disjoint from the code. */
  function LengthField(maskBit: byte, length: nat): Bytes
    requires maskBit == 0 || maskBit == MASK_BIT
  {
    [maskBit + LengthCode(length)] + LengthTail(length)
  }

  type Mask = m: Bytes | |m| == 4 witness [0, 0, 0, 0]

  function Masked(payload: Bytes, mask: Mask): Bytes {
    seq(|payload|, i requires 0 <= i < |payload| => Xor(payload[i], mask[i % 4]))
  }

  const MAX_CLIENT_PAYLOAD := 0x7FFF_FFFF_FFFF_FFFF
  const MAX_SERVER_PAYLOAD := 0xFFFF_FFFF_FFFF_FFFF

  /** `websocket_send_client_frame`; None when the payload is too large. */
  function ClientFrame(opcode: byte, payload: Bytes, mask: Mask): Option<Bytes> {
    if |payload| > MAX_CLIENT_PAYLOAD then None
    else Some([0x80 + LowBits(opcode, 16)] + LengthField(MASK_BIT, |payload|) + mask + Masked(payload, mask))
  }

  /** `_send_websocket_binary`; None where packing the length fails. */
  function ServerFrame(payload: Bytes): Option<Bytes> {
    if |payload| > MAX_SERVER_PAYLOAD then None
    else Some([0x82] + LengthField(0, |payload|) + payload)
  }

  // ----- reading from a byte string -----

  datatype Frame = Frame(opcode: byte, payload: Bytes)

  /** A frame and the bytes after it; or the bytes left when the stream ends inside one. */
  datatype Parsed = Complete(frame: Frame, rest: Bytes) | Truncated(rest: Bytes)

  function Parse(s: Bytes): Parsed {
    if |s| < 2 then Truncated(s) else ParseLength(s[0], s[1], s[2..])
  }

  function ParseLength(first: byte, second: byte, s: Bytes): Parsed {
    var short := LowBits(second, 128);
    var n := ExtendedLength(short);
    if n == 0 then ParseMask(first, second >= MASK_BIT, short, s)
    else if |s| < n then Truncated(s)
    else ParseMask(first, second >= MASK_BIT, FromBigEndian(s[..n]), s[n..])
  }

  function ParseMask(first: byte, masked: bool, length: nat, s: Bytes): Parsed {
    if !masked then ParsePayload(first, None, length, s)
    else if |s| < 4 then Truncated(s)
    else ParsePayload(first, Some(s[..4]), length, s[4..])
  }

  function Unmasked(payload: Bytes, mask: Option<Mask>): Bytes {
    if mask.Some? then Masked(payload, mask.value) else payload
  }

  function ParsePayload(first: byte, mask: Option<Mask>, length: nat, s: Bytes): Parsed {
    if |s| < length then Truncated(s)
    else Complete(Frame(LowBits(first, 16), Unmasked(s[..length], mask)), s[length..])
  }

  // ----- the layout of a frame -----

  /** How many bytes follow a seven-bit length code. */
  ghost function Extension(code: int): nat {
    if code < 126 then 0 else if code == 126 then 2 else 8
  }

  ghost function Pair(s: Bytes, i: nat): nat
    requires i + 2 <= |s|
  {
    0x100 * (s[i] as nat) + s[i + 1]
  }

  /** The number that bytes 2 to 1 + width of a frame spell, most significant first. */
  ghost function Spelled(s: Bytes, width: nat): nat
    requires 2 + width <= |s|
    requires width == 2 || width == 8
  {
    if width == 2 then Pair(s, 2)
    else 0x1_0000_0000_0000 * Pair(s, 2) + 0x1_0000_0000 * Pair(s, 4) + 0x1_0000 * Pair(s, 6) + Pair(s, 8)
  }

  /** Bytes from position `at` on hold the payload with the digits flipped where the key has a 1; the key repeats. */
  ghost predicate Flipped(s: Bytes, at: nat, payload: Bytes, key: Mask) {
    && at + |payload| <= |s|
    && forall i, k :: 0 <= i < |payload| && 0 <= k < 8 ==> Digit(s[at + i], k) == if Digit(payload[i], k) != Digit(key[i % 4], k) then 1 else 0
  }

  /** The shortest length form: seven bits, or 126 and two bytes, or 127 and eight bytes. */
  ghost predicate ShortestLength(s: Bytes, maskBit: int, n: nat) {
    && |s| >= 2
    && (if n < 126 then s[1] == maskBit + n
        else if n <= 0xFFFF then s[1] == maskBit + 126 && |s| >= 4 && Spelled(s, 2) == n
        else s[1] == maskBit + 127 && |s| >= 10 && Spelled(s, 8) == n)
  }

  ghost function HeaderLength(n: nat): nat {
    if n < 126 then 2 else if n <= 0xFFFF then 4 else 10
  }

  lemma SpelledIsBigEndian(s: Bytes, width: nat)
    requires 2 + width <= |s| && (width == 2 || width == 8)
    ensures FromBigEndian(s[2..2 + width]) == Spelled(s, width)
  {
    var b := s[2..2 + width];
    assert FromBigEndian(b[..0]) == 0;
    FromBigEndianNext(b, 0);
    FromBigEndianNext(b, 1);
    if width == 8 {
      FromBigEndianNext(b, 2);
      FromBigEndianNext(b, 3);
      FromBigEndianNext(b, 4);
      FromBigEndianNext(b, 5);
      FromBigEndianNext(b, 6);
      FromBigEndianNext(b, 7);
    }
    assert b[..width] == b;
  }

  lemma FromBigEndianNext(b: Bytes, i: nat)
    requires i < |b|
    ensures FromBigEndian(b[..i + 1]) == 256 * FromBigEndian(b[..i]) + b[i]
  {
    assert b[..i + 1][..i] == b[..i];
  }

  /** The length part of a printed frame has the shortest form, whatever comes before and after it. */
  lemma LengthFieldLayout(first: byte, maskBit: byte, n: nat, after: Bytes)
    requires n <= MAX_SERVER_PAYLOAD && (maskBit == 0 || maskBit == MASK_BIT)
    ensures |[first] + LengthField(maskBit, n)| == HeaderLength(n)
    ensures ShortestLength([first] + LengthField(maskBit, n) + after, maskBit, n)
  {
    var s := [first] + LengthField(maskBit, n) + after;
    LengthTailRoundTrip(n);
    if n >= 126 {
      var width := if n <= 0xFFFF then 2 else 8;
      assert s[2..2 + width] == LengthTail(n);
      SpelledIsBigEndian(s, width);
    }
  }

  lemma MaskedIsFlipped(before: Bytes, payload: Bytes, key: Mask)
    ensures Flipped(before + Masked(payload, key), |before|, payload, key)
  {
    var s := before + Masked(payload, key);
    forall i, k | 0 <= i < |payload| && 0 <= k < 8
      ensures Digit(s[|before| + i], k) == if Digit(payload[i], k) != Digit(key[i % 4], k) then 1 else 0
    {
      XorDigits(payload[i], key[i % 4], k);
    }
  }

  /**
   A client frame is laid out as sections 5.2 and 5.3 of RFC 6455 say: final fragment and opcode, the mask bit with the
   shortest length form, the key, and the payload with its digits flipped where the key has a 1.
   */
  lemma ClientLayout(opcode: byte, payload: Bytes, key: Mask)
    requires |payload| <= 0x7FFF_FFFF_FFFF_FFFF
    ensures var frame, h := ClientFrame(opcode, payload, key), HeaderLength(|payload|);
            && frame.Some? && |frame.value| == h + 4 + |payload|
            && frame.value[0] == 0x80 + opcode % 0x10
            && ShortestLength(frame.value, 0x80, |payload|)
            && frame.value[h..h + 4] == key
            && Flipped(frame.value, h + 4, payload, key)
  {
    var first := 0x80 + LowBits(opcode, 16);
    LengthFieldLayout(first, MASK_BIT, |payload|, key + Masked(payload, key));
    ClientFrameSplits(first, payload, key);
    MaskedIsFlipped([first] + LengthField(MASK_BIT, |payload|) + key, payload, key);
  }

  lemma ClientFrameSplits(first: byte, payload: Bytes, key: Mask)
    ensures var head, masked := [first] + LengthField(MASK_BIT, |payload|), Masked(payload, key);
            var frame := head + key + masked;
            && frame == head + (key + masked)
            && frame[|head|..|head| + 4] == key && frame[0] == first
  {
  }

  /** A server frame: one binary frame with the shortest length form and the payload as it is. */
  lemma ServerLayout(payload: Bytes)
    requires |payload| <= 0xFFFF_FFFF_FFFF_FFFF
    ensures var frame, h := ServerFrame(payload), HeaderLength(|payload|);
            && frame.Some? && |frame.value| == h + |payload|
            && frame.value[0] == 0x82 && ShortestLength(frame.value, 0, |payload|)
            && frame.value[h..] == payload
  {
    LengthFieldLayout(0x82, 0, |payload|, payload);
  }

  /** Where the key or the payload begins, by the second byte. */
  ghost function BodyAt(s: Bytes): nat
    requires |s| >= 2
  {
    2 + Extension(s[1] % 0x80)
  }

  /** The payload length a frame announces, in whichever of the three forms it uses. */
  ghost function Announced(s: Bytes): nat
    requires |s| >= 2 && |s| >= BodyAt(s)
  {
    var code := s[1] % 0x80;
    if code < 126 then code else Spelled(s, Extension(code))
  }

  ghost function KeyLength(s: Bytes): nat
    requires |s| >= 2
  {
    if s[1] >= 0x80 then 4 else 0
  }

  /** The bytes hold a whole frame of any kind: header, key if the mask bit is set, and as many bytes as it announces. */
  ghost predicate Whole(s: Bytes) {
    |s| >= 2 && |s| >= BodyAt(s) && |s| >= BodyAt(s) + KeyLength(s) + Announced(s)
  }

  /** The frame that whole bytes mean: the low four digits of the first byte, and the payload without its mask. */
  ghost predicate Means(s: Bytes, f: Frame)
    requires Whole(s)
  {
    var body := BodyAt(s);
    && f.opcode == s[0] % 0x10
    && |f.payload| == Announced(s)
    && (if s[1] >= 0x80 then Flipped(s, body + 4, f.payload, s[body..body + 4])
        else s[body..body + Announced(s)] == f.payload)
  }

  lemma UnmaskedMeans(data: Bytes, key: Mask)
    ensures forall i, k :: 0 <= i < |data| && 0 <= k < 8 ==>
              Digit(data[i], k) == if Digit(Masked(data, key)[i], k) != Digit(key[i % 4], k) then 1 else 0
  {
    forall i, k | 0 <= i < |data| && 0 <= k < 8
      ensures Digit(data[i], k) == if Digit(Masked(data, key)[i], k) != Digit(key[i % 4], k) then 1 else 0
    {
      XorTwice(data[i], key[i % 4]);
      XorDigits(Masked(data, key)[i], key[i % 4], k);
    }
  }

  lemma ParseBody(s: Bytes)
    requires |s| >= 2 && |s| >= BodyAt(s)
    ensures Parse(s) == ParseMask(s[0], s[1] >= 0x80, Announced(s), s[BodyAt(s)..])
  {
    var n := Extension(s[1] % 0x80);
    assert s[2..][..n] == s[2..2 + n] && s[2..][n..] == s[2 + n..];
    if n > 0 { SpelledIsBigEndian(s, n); }
  }

  lemma MaskedBody(first: byte, n: nat, s: Bytes)
    ensures var p := ParseMask(first, true, n, s);
            && (p.Complete? <==> 4 + n <= |s|)
            && (p.Complete? ==> p.frame.opcode == first % 0x10 && |p.frame.payload| == n && p.rest == s[4 + n..]
                                && Flipped(s, 4, p.frame.payload, s[..4]))
  {
    if 4 + n <= |s| {
      assert s[4..][..n] == s[4..4 + n] && s[4..][n..] == s[4 + n..];
      UnmaskedMeans(s[4..4 + n], s[..4]);
    }
  }

  lemma PlainBody(first: byte, n: nat, s: Bytes)
    ensures var p := ParseMask(first, false, n, s);
            && (p.Complete? <==> n <= |s|)
            && (p.Complete? ==> p.frame == Frame(first % 0x10, s[..n]) && p.rest == s[n..])
  {
  }

  /** The reader takes exactly the whole frames, any of them, for what they mean, and consumes nothing after them. */
  lemma ParseReadsLayout(s: Bytes)
    ensures Parse(s).Complete? <==> Whole(s)
    ensures Whole(s) ==> Means(s, Parse(s).frame) && Parse(s).rest == s[BodyAt(s) + KeyLength(s) + Announced(s)..]
  {
    if |s| >= 2 && |s| >= BodyAt(s) {
      ParseBody(s);
      BodyMeans(s, s[BodyAt(s)..]);
    }
  }

  lemma BodyMeans(s: Bytes, body: Bytes)
    requires |s| >= 2 && |s| >= BodyAt(s) && body == s[BodyAt(s)..]
    ensures var p := ParseMask(s[0], s[1] >= 0x80, Announced(s), body);
            && (p.Complete? <==> Whole(s))
            && (Whole(s) ==> Means(s, p.frame) && p.rest == s[BodyAt(s) + KeyLength(s) + Announced(s)..])
  {
    if s[1] >= 0x80 { MaskedBody(s[0], Announced(s), body); } else { PlainBody(s[0], Announced(s), body); }
  }

  // ----- printing, then reading -----

  lemma MaskTwice(payload: Bytes, mask: Mask)
    ensures Masked(Masked(payload, mask), mask) == payload
  {
    var twice := Masked(Masked(payload, mask), mask);
    forall i | 0 <= i < |payload| ensures twice[i] == payload[i] {
      XorTwice(payload[i], mask[i % 4]);
    }
  }

  lemma LengthTailRoundTrip(length: nat)
    requires length <= MAX_SERVER_PAYLOAD
    ensures |LengthTail(length)| == ExtendedLength(LengthCode(length))
    ensures if length < 126 then LengthCode(length) == length else FromBigEndian(LengthTail(length)) == length
  {
    PowersOf256();
    if length >= 126 {
      BigEndianRoundTrip(length, ExtendedLength(LengthCode(length)));
    }
  }

  /** Reading undoes the printing of a length, whatever follows it. */
  lemma LengthRoundTrip(first: byte, maskBit: byte, length: nat, s: Bytes)
    requires length <= MAX_SERVER_PAYLOAD && (maskBit == 0 || maskBit == MASK_BIT)
    ensures Parse([first] + LengthField(maskBit, length) + s) == ParseMask(first, maskBit == MASK_BIT, length, s)
  {
    var second, tail := maskBit + LengthCode(length), LengthTail(length);
    FieldSplits(first, maskBit, length, s);
    PairRead(first, second, tail + s);
    assert LowBits(second, 128) == LengthCode(length);
    LengthTailRoundTrip(length);
    TailRead(first, second, tail, s);
  }

  lemma FieldSplits(first: byte, maskBit: byte, length: nat, s: Bytes)
    requires maskBit == 0 || maskBit == MASK_BIT
    ensures [first] + LengthField(maskBit, length) + s == [first, maskBit + LengthCode(length)] + (LengthTail(length) + s)
  {
  }

  lemma PairRead(first: byte, second: byte, s: Bytes)
    ensures Parse([first, second] + s) == ParseLength(first, second, s)
  {
    assert ([first, second] + s)[2..] == s;
  }

  /** What the reader makes of an extended length of the announced size. */
  lemma TailRead(first: byte, second: byte, tail: Bytes, s: Bytes)
    requires |tail| == ExtendedLength(LowBits(second, 128))
    ensures ParseLength(first, second, tail + s)
            == ParseMask(first, second >= MASK_BIT, if tail == [] then LowBits(second, 128) else FromBigEndian(tail), s)
  {
    assert (tail + s)[..|tail|] == tail && (tail + s)[|tail|..] == s;
    if tail == [] { assert tail + s == s; }
  }

  lemma PowersOf256()
    ensures Power256(2) == 0x1_0000 && Power256(8) == 0x1_0000_0000_0000_0000
  {
    assert Power256(4) == 0x1_0000_0000;
    assert Power256(6) == 0x1_0000_0000_0000;
  }

  lemma MaskedPayloadRead(first: byte, payload: Bytes, mask: Mask, s: Bytes)
    ensures ParseMask(first, true, |payload|, mask + Masked(payload, mask) + s) == Complete(Frame(LowBits(first, 16), payload), s)
  {
    var masked := Masked(payload, mask);
    var tail := mask + masked + s;
    assert tail[..4] == mask && tail[4..] == masked + s;
    assert (masked + s)[..|payload|] == masked && (masked + s)[|payload|..] == s;
    MaskTwice(payload, mask);
  }

  /** A frame printed by the client is read back with its opcode and payload, and nothing else is consumed. */
  lemma ClientRoundTrip(opcode: byte, payload: Bytes, mask: Mask, s: Bytes)
    requires |payload| <= MAX_CLIENT_PAYLOAD
    ensures Parse(ClientFrame(opcode, payload, mask).value + s) == Complete(Frame(LowBits(opcode, 16), payload), s)
  {
    var first, tail := 0x80 + LowBits(opcode, 16), mask + Masked(payload, mask) + s;
    assert ClientFrame(opcode, payload, mask).value + s == [first] + LengthField(MASK_BIT, |payload|) + tail;
    LengthRoundTrip(first, MASK_BIT, |payload|, tail);
    MaskedPayloadRead(first, payload, mask, s);
  }

  /** The same for a frame printed by the server, which is always binary. */
  lemma ServerRoundTrip(payload: Bytes, s: Bytes)
    requires |payload| <= MAX_SERVER_PAYLOAD
    ensures Parse(ServerFrame(payload).value + s) == Complete(Frame(2, payload), s)
  {
    assert ServerFrame(payload).value + s == [0x82] + LengthField(0, |payload|) + (payload + s);
    LengthRoundTrip(0x82, 0, |payload|, payload + s);
    assert (payload + s)[..|payload|] == payload && (payload + s)[|payload|..] == s;
  }

  // ----- a frame that is still arriving -----

  lemma PayloadReadExtends(first: byte, mask: Option<Mask>, length: nat, s: Bytes, more: Bytes)
    requires ParsePayload(first, mask, length, s).Complete?
    ensures var p := ParsePayload(first, mask, length, s);
            ParsePayload(first, mask, length, s + more) == Complete(p.frame, p.rest + more)
  {
    var payload, rest := s[..length], s[length..];
    assert (s + more)[..length] == payload && (s + more)[length..] == rest + more;
  }

  lemma MaskReadExtends(first: byte, masked: bool, length: nat, s: Bytes, more: Bytes)
    requires ParseMask(first, masked, length, s).Complete?
    ensures var p := ParseMask(first, masked, length, s);
            ParseMask(first, masked, length, s + more) == Complete(p.frame, p.rest + more)
  {
    if !masked {
      PayloadReadExtends(first, None, length, s, more);
    } else {
      assert (s + more)[..4] == s[..4] && (s + more)[4..] == s[4..] + more;
      PayloadReadExtends(first, Some(s[..4]), length, s[4..], more);
    }
  }

  lemma LengthReadExtends(first: byte, second: byte, s: Bytes, more: Bytes)
    requires ParseLength(first, second, s).Complete?
    ensures var p := ParseLength(first, second, s);
            ParseLength(first, second, s + more) == Complete(p.frame, p.rest + more)
  {
    var short := LowBits(second, 128);
    var n := ExtendedLength(short);
    if n == 0 {
      MaskReadExtends(first, second >= MASK_BIT, short, s, more);
    } else {
      assert (s + more)[..n] == s[..n] && (s + more)[n..] == s[n..] + more;
      MaskReadExtends(first, second >= MASK_BIT, FromBigEndian(s[..n]), s[n..], more);
    }
  }

  /** Once a frame has been read, bytes that arrive later cannot change it. */
  lemma FrameReadExtends(s: Bytes, more: Bytes)
    requires Parse(s).Complete?
    ensures Parse(s + more) == Complete(Parse(s).frame, Parse(s).rest + more)
  {
    assert (s + more)[2..] == s[2..] + more;
    LengthReadExtends(s[0], s[1], s[2..], more);
  }

  // ----- a run of frames, from either side -----

  datatype Sent = ByClient(opcode: byte, payload: Bytes, mask: Mask) | ByServer(payload: Bytes)

  function Wire(sent: Sent): Option<Bytes> {
    match sent
    case ByClient(opcode, payload, mask) => ClientFrame(opcode, payload, mask)
    case ByServer(payload) => ServerFrame(payload)
  }

  function Meant(sent: Sent): Frame {
    match sent
    case ByClient(opcode, payload, _) => Frame(LowBits(opcode, 16), payload)
    case ByServer(payload) => Frame(2, payload)
  }

  lemma SentRoundTrip(sent: Sent, s: Bytes)
    requires Wire(sent).Some?
    ensures Parse(Wire(sent).value + s) == Complete(Meant(sent), s)
  {
    match sent
    case ByClient(opcode, payload, mask) => ClientRoundTrip(opcode, payload, mask, s);
    case ByServer(payload) => ServerRoundTrip(payload, s);
  }

  /** A frame cut short anywhere is never taken for a frame. */
  lemma CutFrameIsTruncated(sent: Sent, n: nat)
    requires Wire(sent).Some? && n < |Wire(sent).value|
    ensures Parse(Wire(sent).value[..n]).Truncated?
  {
    var wire := Wire(sent).value;
    SentRoundTrip(sent, []);
    ExactFrameCut(wire, n);
  }

  /** Bytes that are a frame to their last one are no frame without it. */
  lemma ExactFrameCut(s: Bytes, n: nat)
    requires n < |s| && Parse(s + []).Complete? && Parse(s + []).rest == []
    ensures Parse(s[..n]).Truncated?
  {
    assert s[..n] + s[n..] == s == s + [];
    if Parse(s[..n]).Complete? { FrameReadExtends(s[..n], s[n..]); }
  }

  ghost predicate Printed(sent: seq<Sent>, wires: seq<Bytes>) {
    |sent| == |wires| && forall i :: 0 <= i < |sent| ==> Wire(sent[i]) == Some(wires[i])
  }

  lemma ConcatNext(wires: seq<Bytes>, after: Bytes)
    requires wires != []
    ensures Concat(wires) + after == wires[0] + (Concat(wires[1..]) + after)
  {
  }

  // ----- the reader -----

  /** The receiving end of a connection: what has been sent but not yet received. */
  class Socket {
    var unread: Bytes

    constructor (bytes: Bytes)
      ensures unread == bytes
    {
      unread := bytes;
    }

    /** Any non-empty part of what is there, at most `limit` bytes; nothing only at the end. */
    method Recv(limit: nat) returns (chunk: Bytes)
      requires 0 < limit
      modifies this
      ensures chunk + unread == old(unread)
      ensures |chunk| <= limit && (chunk == [] <==> old(unread) == [])
    {
      if unread == [] { return []; }
      var n :| 1 <= n <= |unread| && n <= limit;
      chunk := unread[..n];
      unread := unread[n..];
    }
  }

  datatype ReadError = ConnectionClosed

  class BufferedSocket {
    const sock: Socket
    var buffer: Bytes

    constructor (sock: Socket, initial: Bytes)
      ensures this.sock == sock && buffer == initial
    {
      this.sock, buffer := sock, initial;
    }

    /** Everything the reader has not handed out yet. */
    function Remaining(): Bytes
      reads this, sock
    {
      buffer + sock.unread
    }

    /** However the bytes arrive, the next `count` of them; when there are fewer, none is lost. */
    method ReadExact(count: nat) returns (r: Result<Bytes, ReadError>)
      modifies this, sock
      ensures r.Ok? <==> count <= |old(Remaining())|
      ensures r.Ok? ==> r.value == old(Remaining())[..count] && Remaining() == old(Remaining())[count..]
      ensures r.Err? ==> Remaining() == old(Remaining())
    {
      while |buffer| < count
        invariant Remaining() == old(Remaining())
        decreases |sock.unread|
      {
        ghost var before := sock.unread;
        var missing := count - |buffer|;
        var chunk := sock.Recv(if 4096 < missing then missing else 4096);
        if chunk == [] { return Err(ConnectionClosed); }
        buffer := buffer + chunk;
        assert buffer + sock.unread == old(Remaining()) by {
          assert chunk + sock.unread == before;
        }
      }
      r := Ok(buffer[..count]);
      assert buffer[..count] == old(Remaining())[..count] && buffer[count..] + sock.unread == old(Remaining())[count..];
      buffer := buffer[count..];
    }

    /** The next frame of the stream, as `Parse` reads it from the bytes taken as a whole. */
    method ReadFrame() returns (r: Result<Frame, ReadError>)
      modifies this, sock
      ensures var p := Parse(old(Remaining()));
              Remaining() == p.rest && r == if p.Complete? then Ok(p.frame) else Err(ConnectionClosed)
    {
      ghost var parsed := Parse(Remaining());
      var head := ReadExact(2);
      if head.Err? { return Err(ConnectionClosed); }
      var first, second := head.value[0], head.value[1];
      var masked, length: nat := second >= MASK_BIT, LowBits(second, 128);
      ghost var stream := Remaining();
      assert parsed == ParseLength(first, second, stream);
      if length == 126 {
        var tail := ReadExact(2);
        if tail.Err? { return Err(ConnectionClosed); }
        length := FromBigEndian(tail.value);
      } else if length == 127 {
        var tail := ReadExact(8);
        if tail.Err? { return Err(ConnectionClosed); }
        length := FromBigEndian(tail.value);
      }
      stream := Remaining();
      assert parsed == ParseMask(first, masked, length, stream);
      var mask: Option<Mask> := None;
      if masked {
        var key := ReadExact(4);
        if key.Err? { return Err(ConnectionClosed); }
        mask := Some(key.value);
      }
      stream := Remaining();
      assert parsed == ParsePayload(first, mask, length, stream);
      var payload := ReadExact(length);
      if payload.Err? { return Err(ConnectionClosed); }
      var plain := payload.value;
      if mask.Some? {
        plain := Masked(plain, mask.value);
      }
      r := Ok(Frame(LowBits(first, 16), plain));
    }

    /** A frame printed by either side comes back, under every chunking, and nothing after it is consumed. */
    method ReadSent(ghost sent: Sent, ghost wire: Bytes, ghost after: Bytes) returns (frame: Frame)
      requires Wire(sent) == Some(wire) && Remaining() == wire + after
      modifies this, sock
      ensures frame == Meant(sent) && Remaining() == after
    {
      SentRoundTrip(sent, after);
      var r := ReadFrame();
      frame := r.value;
    }

    /** So a run of frames comes back complete and in order. */
    method ReadFrames(count: nat, ghost sent: seq<Sent>, ghost wires: seq<Bytes>, ghost after: Bytes) returns (frames: seq<Frame>)
      requires |sent| == count && Printed(sent, wires) && Remaining() == Concat(wires) + after
      modifies this, sock
      ensures |frames| == count && forall i :: 0 <= i < count ==> frames[i] == Meant(sent[i])
      ensures Remaining() == after
    {
      frames := [];
      while |frames| < count
        invariant |frames| <= count
        invariant forall i :: 0 <= i < |frames| ==> frames[i] == Meant(sent[i])
        invariant Remaining() == Concat(wires[|frames|..]) + after
      {
        ghost var i := |frames|;
        ConcatNext(wires[i..], after);
        assert wires[i..][1..] == wires[i + 1..];
        var frame := ReadSent(sent[i], wires[i], Concat(wires[i + 1..]) + after);
        frames := frames + [frame];
      }
    }
  }
}
