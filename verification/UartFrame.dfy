/** Raw frames, byte stuffing and the two directions between a frame and its bytes. */
module UartFrames {
  import opened Wrappers
  import opened Octets
  import opened UartCrc

  const FRAME_FLAG: byte := 0x7E
  const FRAME_ESCAPE: byte := 0x7D
  const ESCAPE_XOR: byte := 0x20
  const PROTOCOL_VERSION: byte := 1
  const HEADER_SIZE: nat := 16
  const CRC_SIZE: nat := 2
  const MAX_PAYLOAD_SIZE: nat := 128
  const MAX_RAW_FRAME_SIZE: nat := HEADER_SIZE + MAX_PAYLOAD_SIZE + CRC_SIZE
  const MAX_ENCODED_FRAME_SIZE: nat := 2 + 2 * MAX_RAW_FRAME_SIZE

  datatype MessageType =
    | HELLO | HELLO_ACK | HEARTBEAT | CONTROL_UPDATE | STATUS | REMOTE_STOP_REQUEST
    | CLEAR_REMOTE_STOP | ACK | NACK | PING | PONG

  function Code(messageType: MessageType): byte {
    match messageType
    case HELLO => 0x01
    case HELLO_ACK => 0x02
    case HEARTBEAT => 0x03
    case CONTROL_UPDATE => 0x04
    case STATUS => 0x05
    case REMOTE_STOP_REQUEST => 0x06
    case CLEAR_REMOTE_STOP => 0x07
    case ACK => 0x08
    case NACK => 0x09
    case PING => 0x0A
    case PONG => 0x0B
  }

  // The known type with this code, if there is one.
  function TypeOfCode(code: byte): (known: Option<MessageType>)
    ensures known.Some? ==> Code(known.value) == code
    ensures forall t :: Code(t) == code ==> known == Some(t)
    ensures known.Some? <==> 0x01 <= code <= 0x0B
  {
    if code == 0x01 then Some(HELLO)
    else if code == 0x02 then Some(HELLO_ACK)
    else if code == 0x03 then Some(HEARTBEAT)
    else if code == 0x04 then Some(CONTROL_UPDATE)
    else if code == 0x05 then Some(STATUS)
    else if code == 0x06 then Some(REMOTE_STOP_REQUEST)
    else if code == 0x07 then Some(CLEAR_REMOTE_STOP)
    else if code == 0x08 then Some(ACK)
    else if code == 0x09 then Some(NACK)
    else if code == 0x0A then Some(PING)
    else if code == 0x0B then Some(PONG)
    else None
  }

  datatype Header = Header(version: byte, messageType: MessageType, payloadLength: bv16,
                           wireSequence: bv32, bootId: bv32, uptimeMs: bv32)

  datatype Frame = Frame(header: Header, payload: seq<byte>)

  datatype FrameError = TOO_SHORT | LENGTH | CRC | VERSION | UNKNOWN_TYPE | OVERSIZE

  datatype Decoded = Accepted(frame: Frame) | Rejected(error: FrameError)

  // ---- little-endian words ----

  function Le16(v: bv16): (bytes: seq<byte>)
    ensures |bytes| == 2
  {
    [(v & 0xFF) as byte, ((v >> 8) & 0xFF) as byte]
  }

  function Le32(v: bv32): (bytes: seq<byte>)
    ensures |bytes| == 4
  {
    [(v & 0xFF) as byte, ((v >> 8) & 0xFF) as byte,
     ((v >> 16) & 0xFF) as byte, ((v >> 24) & 0xFF) as byte]
  }

  function Word16(b0: byte, b1: byte): bv16 {
    (b0 as bv16) | ((b1 as bv16) << 8)
  }

  function Word32(b0: byte, b1: byte, b2: byte, b3: byte): bv32 {
    (b0 as bv32) | ((b1 as bv32) << 8) | ((b2 as bv32) << 16) | ((b3 as bv32) << 24)
  }

  function At16(data: seq<byte>, offset: nat): (v: bv16)
    requires offset + 2 <= |data|
  {
    Word16(data[offset], data[offset + 1])
  }

  function At32(data: seq<byte>, offset: nat): (v: bv32)
    requires offset + 4 <= |data|
  {
    Word32(data[offset], data[offset + 1], data[offset + 2], data[offset + 3])
  }

  lemma Le16Word(v: bv16)
    ensures Word16(Le16(v)[0], Le16(v)[1]) == v
  {
  }

  lemma Word16Le(b0: byte, b1: byte)
    ensures Le16(Word16(b0, b1)) == [b0, b1]
  {
  }

  lemma Le32Word(v: bv32)
    ensures Word32(Le32(v)[0], Le32(v)[1], Le32(v)[2], Le32(v)[3]) == v
  {
  }

  lemma Word32Le(b0: byte, b1: byte, b2: byte, b3: byte)
    ensures Le32(Word32(b0, b1, b2, b3)) == [b0, b1, b2, b3]
  {
  }

  // Reading at an offset returns the word that was appended there, and the other way round.
  lemma Read16(data: seq<byte>, offset: nat, v: bv16)
    requires offset + 2 <= |data|
    ensures data[offset..offset + 2] == Le16(v) <==> At16(data, offset) == v
  {
    Le16Word(v);
    Word16Le(data[offset], data[offset + 1]);
    assert data[offset..offset + 2] == [data[offset], data[offset + 1]];
  }

  lemma Read32(data: seq<byte>, offset: nat, v: bv32)
    requires offset + 4 <= |data|
    ensures data[offset..offset + 4] == Le32(v) <==> At32(data, offset) == v
  {
    Le32Word(v);
    Word32Le(data[offset], data[offset + 1], data[offset + 2], data[offset + 3]);
    assert data[offset..offset + 4]
        == [data[offset], data[offset + 1], data[offset + 2], data[offset + 3]];
  }

  // ---- raw frames ----

  function Length(n: nat): bv16
    requires n <= MAX_PAYLOAD_SIZE
  {
    n as bv16
  }

  lemma LengthFits(n: nat)
    requires n <= MAX_PAYLOAD_SIZE
    ensures Length(n) as nat == n
  {
    NarrowFits(n);
  }

  lemma NarrowFits(n: nat)
    requires n <= 128
    ensures (n as bv16) as nat == n
  {
    ByteFits(n);
    ByteWidens(n);
    WideSame(n as byte);
  }

  lemma ByteFits(n: nat)
    requires n <= 128
    ensures (n as byte) as nat == n
  {
  }

  lemma ByteWidens(n: nat)
    requires n <= 128
    ensures n as bv16 == (n as byte) as bv16
  {
  }

  lemma WideSame(b: byte)
    ensures (b as bv16) as nat == b as nat
  {
  }

  function HeaderBytes(header: Header, length: bv16): (bytes: seq<byte>)
    ensures |bytes| == HEADER_SIZE
  {
    [header.version, Code(header.messageType)] + Le16(length)
    + Le32(header.wireSequence) + Le32(header.bootId) + Le32(header.uptimeMs)
  }

  ghost function Sealed(body: seq<byte>): seq<byte> {
    body + Le16(Crc(body))
  }

  // Header with the actual payload size, payload, checksum.
  ghost function Raw(header: Header, payload: seq<byte>): (raw: seq<byte>)
    requires |payload| <= MAX_PAYLOAD_SIZE
    ensures |raw| == HEADER_SIZE + |payload| + CRC_SIZE
  {
    Sealed(HeaderBytes(header, Length(|payload|)) + payload)
  }

  ghost function HeaderOf(raw: seq<byte>, messageType: MessageType): Header
    requires |raw| >= HEADER_SIZE
  {
    Header(raw[0], messageType, At16(raw, 2), At32(raw, 4), At32(raw, 8), At32(raw, 12))
  }

  ghost function Decode(raw: seq<byte>): Decoded {
    if |raw| < HEADER_SIZE + CRC_SIZE then Rejected(TOO_SHORT)
    else if |raw| > MAX_RAW_FRAME_SIZE then Rejected(OVERSIZE)
    else
      var length := At16(raw, 2) as nat;
      if length > MAX_PAYLOAD_SIZE || |raw| != HEADER_SIZE + length + CRC_SIZE then Rejected(LENGTH)
      else if At16(raw, |raw| - CRC_SIZE) != Crc(raw[..|raw| - CRC_SIZE]) then Rejected(CRC)
      else if raw[0] != PROTOCOL_VERSION then Rejected(VERSION)
      else
        var known := TypeOfCode(raw[1]);
        if known.None? then Rejected(UNKNOWN_TYPE)
        else Accepted(Frame(HeaderOf(raw, known.value), raw[HEADER_SIZE..HEADER_SIZE + length]))
  }

  // A frame as the encoder produces it and as the decoder accepts it.
  ghost predicate Sendable(header: Header, payload: seq<byte>) {
    && |payload| <= MAX_PAYLOAD_SIZE
    && header.version == PROTOCOL_VERSION
  }

  ghost predicate WellFormed(frame: Frame) {
    && Sendable(frame.header, frame.payload)
    && frame.header.payloadLength == Length(|frame.payload|)
  }

  lemma HeaderReads(header: Header, length: bv16, raw: seq<byte>)
    requires HEADER_SIZE <= |raw| && raw[..HEADER_SIZE] == HeaderBytes(header, length)
    ensures raw[1] == Code(header.messageType)
    ensures HeaderOf(raw, header.messageType) == header.(payloadLength := length)
  {
    var h := raw[..HEADER_SIZE];
    assert raw[0] == h[0] && raw[1] == h[1];
    assert raw[2..4] == h[2..4] == Le16(length);
    assert raw[4..8] == h[4..8] == Le32(header.wireSequence);
    assert raw[8..12] == h[8..12] == Le32(header.bootId);
    assert raw[12..16] == h[12..16] == Le32(header.uptimeMs);
    Read16(raw, 2, length);
    Read32(raw, 4, header.wireSequence);
    Read32(raw, 8, header.bootId);
    Read32(raw, 12, header.uptimeMs);
  }

  // The parts of a sealed frame, read back.
  lemma SealedReads(header: Header, length: bv16, payload: seq<byte>, raw: seq<byte>)
    requires raw == Sealed(HeaderBytes(header, length) + payload)
    ensures HEADER_SIZE + |payload| + CRC_SIZE == |raw|
    ensures raw[1] == Code(header.messageType)
    ensures HeaderOf(raw, header.messageType) == header.(payloadLength := length)
    ensures raw[HEADER_SIZE..HEADER_SIZE + |payload|] == payload
    ensures At16(raw, |raw| - CRC_SIZE) == Crc(raw[..|raw| - CRC_SIZE])
  {
    var body := HeaderBytes(header, length) + payload;
    assert raw[..HEADER_SIZE] == HeaderBytes(header, length);
    HeaderReads(header, length, raw);
    assert raw[..|raw| - CRC_SIZE] == body;
    assert raw[|raw| - CRC_SIZE..|raw| - CRC_SIZE + 2] == Le16(Crc(body));
    Read16(raw, |raw| - CRC_SIZE, Crc(body));
  }

  // What the encoder lays out, the decoder accepts, with the payload length filled in.
  lemma RawDecodes(header: Header, payload: seq<byte>)
    requires Sendable(header, payload)
    ensures Decode(Raw(header, payload))
         == Accepted(Frame(header.(payloadLength := Length(|payload|)), payload))
  {
    SealedReads(header, Length(|payload|), payload, Raw(header, payload));
    LengthFits(|payload|);
  }

  lemma NatBack(w: bv16)
    ensures (w as nat) as bv16 == w
  {
  }

  lemma LengthBack(length: bv16)
    requires length as nat <= MAX_PAYLOAD_SIZE
    ensures Length(length as nat) == length
  {
    NatBack(length);
  }

  lemma HeaderBack(raw: seq<byte>, messageType: MessageType)
    requires HEADER_SIZE <= |raw| && raw[1] == Code(messageType)
    ensures HeaderBytes(HeaderOf(raw, messageType), At16(raw, 2)) == raw[..HEADER_SIZE]
  {
    var h := HeaderOf(raw, messageType);
    Read16(raw, 2, h.payloadLength);
    Read32(raw, 4, h.wireSequence);
    Read32(raw, 8, h.bootId);
    Read32(raw, 12, h.uptimeMs);
    assert raw[..HEADER_SIZE] == [raw[0], raw[1]] + raw[2..4] + raw[4..8] + raw[8..12] + raw[12..16];
  }

  lemma Resealed(raw: seq<byte>, body: seq<byte>)
    requires CRC_SIZE <= |raw| && body == raw[..|raw| - CRC_SIZE]
    requires At16(raw, |raw| - CRC_SIZE) == Crc(body)
    ensures Sealed(body) == raw
  {
    Read16(raw, |raw| - CRC_SIZE, Crc(body));
    assert raw == body + raw[|raw| - CRC_SIZE..|raw| - CRC_SIZE + 2];
  }

  // What the decoder accepts re-encodes to the same bytes.
  lemma DecodedIsRaw(raw: seq<byte>)
    requires Decode(raw).Accepted?
    ensures WellFormed(Decode(raw).frame)
    ensures Raw(Decode(raw).frame.header, Decode(raw).frame.payload) == raw
  {
    var frame := Decode(raw).frame;
    LengthBack(At16(raw, 2));
    HeaderBack(raw, frame.header.messageType);
    var body := raw[..|raw| - CRC_SIZE];
    assert body == raw[..HEADER_SIZE] + frame.payload;
    Resealed(raw, body);
  }

  // The accepted byte strings are exactly the encodings, one for each frame.
  lemma AcceptedIffRaw(raw: seq<byte>, frame: Frame)
    ensures Decode(raw) == Accepted(frame)
       <==> WellFormed(frame) && raw == Raw(frame.header, frame.payload)
  {
    if WellFormed(frame) {
      RawDecodes(frame.header, frame.payload);
    }
    if Decode(raw).Accepted? {
      DecodedIsRaw(raw);
    }
  }

  // Damage within sixteen consecutive bits of header and payload never passes.
  lemma BurstRejected(raw: seq<byte>, damaged: seq<byte>, from: nat)
    requires Decode(raw).Accepted? && |damaged| == |raw|
    requires damaged[|raw| - CRC_SIZE..] == raw[|raw| - CRC_SIZE..]
    requires Burst(raw[..|raw| - CRC_SIZE], damaged[..|raw| - CRC_SIZE], from)
    ensures Decode(damaged) == Rejected(if damaged[2..4] == raw[2..4] then CRC else LENGTH)
  {
    var n := |raw| - CRC_SIZE;
    BurstDetected(raw[..n], damaged[..n], from);
    SameWord(raw, damaged, n, raw[n..], damaged[n..]);
    if damaged[2..4] == raw[2..4] {
      SameWord(raw, damaged, 2, raw[2..4], damaged[2..4]);
    } else {
      SameLength(raw, damaged);
    }
  }

  lemma SameWord(raw: seq<byte>, damaged: seq<byte>, at: nat, a: seq<byte>, b: seq<byte>)
    requires |raw| == |damaged| && at + 2 <= |raw|
    requires a == b && |a| == 2 && a == raw[at..at + 2] && b == damaged[at..at + 2]
    ensures At16(raw, at) == At16(damaged, at)
  {
    assert raw[at] == a[0] == b[0] == damaged[at];
    assert raw[at + 1] == a[1] == b[1] == damaged[at + 1];
  }

  lemma SameLength(raw: seq<byte>, damaged: seq<byte>)
    requires 4 <= |raw| == |damaged| && damaged[2..4] != raw[2..4]
    ensures At16(damaged, 2) as nat != At16(raw, 2) as nat
  {
    Read16(raw, 2, At16(raw, 2));
    Read16(damaged, 2, At16(raw, 2));
    WordsApart(At16(raw, 2), At16(damaged, 2));
  }

  lemma WordsApart(a: bv16, b: bv16)
    requires a != b
    ensures a as nat != b as nat
  {
    if a as nat == b as nat {
      NatBack(a);
      NatBack(b);
    }
  }

  // ---- byte stuffing ----

  predicate NeedsEscape(value: byte) {
    value == FRAME_FLAG || value == FRAME_ESCAPE
  }

  function StuffByte(value: byte): (bytes: seq<byte>)
    ensures 1 <= |bytes| <= 2 && FRAME_FLAG !in bytes
  {
    if NeedsEscape(value) then [FRAME_ESCAPE, value ^ ESCAPE_XOR] else [value]
  }

  function Stuff(raw: seq<byte>): (bytes: seq<byte>)
    ensures |raw| <= |bytes| <= 2 * |raw| && FRAME_FLAG !in bytes
  {
    if raw == [] then [] else StuffByte(raw[0]) + Stuff(raw[1..])
  }

  lemma {:induction false} StuffAppend(a: seq<byte>, b: seq<byte>)
    ensures Stuff(a + b) == Stuff(a) + Stuff(b)
    decreases |a|
  {
    if a == [] {
      assert a + b == b;
    } else {
      assert (a + b)[1..] == a[1..] + b;
      StuffAppend(a[1..], b);
      assert StuffByte(a[0]) + (Stuff(a[1..]) + Stuff(b)) == (StuffByte(a[0]) + Stuff(a[1..])) + Stuff(b);
    }
  }

  lemma StuffNext(raw: seq<byte>, index: nat)
    requires index < |raw|
    ensures Stuff(raw[..index + 1]) == Stuff(raw[..index]) + StuffByte(raw[index])
  {
    assert raw[..index + 1] == raw[..index] + [raw[index]];
    StuffAppend(raw[..index], [raw[index]]);
    assert Stuff([raw[index]]) == StuffByte(raw[index]);
  }

  ghost function Delimited(raw: seq<byte>): seq<byte> {
    [FRAME_FLAG] + Stuff(raw) + [FRAME_FLAG]
  }

  // The encoder's result: it refuses an oversized payload and another version.
  ghost function Encoded(header: Header, payload: seq<byte>): (encoded: Option<seq<byte>>)
    ensures encoded.Some? <==> Sendable(header, payload)
    ensures encoded.Some? ==> |encoded.value| <= MAX_ENCODED_FRAME_SIZE
  {
    if |payload| > MAX_PAYLOAD_SIZE || header.version != PROTOCOL_VERSION then None
    else Some(Delimited(Raw(header, payload)))
  }

  method AppendEscaped(output: seq<byte>, value: byte) returns (grown: seq<byte>)
    ensures grown == output + StuffByte(value)
  {
    if value == FRAME_FLAG || value == FRAME_ESCAPE {
      return output + [FRAME_ESCAPE, value ^ ESCAPE_XOR];
    }
    return output + [value];
  }

  // The stuffed bytes between two flags.
  method Delimit(raw: seq<byte>) returns (output: seq<byte>)
    ensures output == Delimited(raw)
  {
    output := [FRAME_FLAG];
    var index := 0;
    while index < |raw|
      invariant 0 <= index <= |raw|
      invariant output == [FRAME_FLAG] + Stuff(raw[..index])
    {
      output := AppendEscaped(output, raw[index]);
      StuffNext(raw, index);
      index := index + 1;
    }
    assert raw[..index] == raw;
    output := output + [FRAME_FLAG];
  }

  method EncodeFrame(header: Header, payload: seq<byte>) returns (encoded: Option<seq<byte>>)
    ensures encoded == Encoded(header, payload)
  {
    if |payload| > MAX_PAYLOAD_SIZE {
      return None;
    }
    if header.version != PROTOCOL_VERSION {
      return None;
    }
    var raw := HeaderBytes(header, Length(|payload|)) + payload;
    var crc := Crc16CcittFalse(raw);
    raw := raw + Le16(crc);
    assert raw == Raw(header, payload);

    var output := Delimit(raw);
    if |output| > MAX_ENCODED_FRAME_SIZE {
      assert false; // the computed maximum is never exceeded
    }
    encoded := Some(output);
  }

  method DecodeRawFrame(raw: seq<byte>) returns (result: Decoded)
    ensures result == Decode(raw)
  {
    if |raw| < HEADER_SIZE + CRC_SIZE {
      return Rejected(TOO_SHORT);
    }
    if |raw| > MAX_RAW_FRAME_SIZE {
      return Rejected(OVERSIZE);
    }
    var version, code := raw[0], raw[1];
    var payloadLength := At16(raw, 2);
    var expectedSize := HEADER_SIZE + payloadLength as nat + CRC_SIZE;
    if payloadLength as nat > MAX_PAYLOAD_SIZE || |raw| != expectedSize {
      return Rejected(LENGTH);
    }
    var receivedCrc := At16(raw, |raw| - CRC_SIZE);
    var computedCrc := Crc16CcittFalse(raw[..|raw| - CRC_SIZE]);
    if receivedCrc != computedCrc {
      return Rejected(CRC);
    }
    if version != PROTOCOL_VERSION {
      return Rejected(VERSION);
    }
    var known := TypeOfCode(code);
    if known.None? {
      return Rejected(UNKNOWN_TYPE);
    }
    var header := Header(version, known.value, payloadLength,
                         At32(raw, 4), At32(raw, 8), At32(raw, 12));
    return Accepted(Frame(header, raw[HEADER_SIZE..HEADER_SIZE + payloadLength as nat]));
  }
}
