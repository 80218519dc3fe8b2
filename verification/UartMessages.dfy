/** The eleven message payloads and the message that travels in a frame. */
module UartMessages {
  import opened Octets
  import opened Wrappers
  import opened UartFrames
  import UartParsers

  // Signed 16-bit fields are kept as their two's-complement bits.
  datatype Body =
    | Hello(deviceRole: byte, minimumVersion: byte, maximumVersion: byte, maxPayload: bv16,
            maxControlRateHz: bv16, capabilityBits: bv32,
            softwareMajor: bv16, softwareMinor: bv16, softwarePatch: bv16)
    | HelloAck(helloWireSequence: bv32, accepted: byte, selectedVersion: byte, deviceRole: byte,
               resultCode: byte, maxPayload: bv16, maxControlRateHz: bv16, capabilityBits: bv32,
               firmwareMajor: bv16, firmwareMinor: bv16, firmwarePatch: bv16)
    | Heartbeat
    | ControlUpdate(captureSessionId: bv32, frameId: bv32, v4l2Sequence: bv32,
                    targetState: byte, controlFlags: byte, dxPx: bv16, dyPx: bv16,
                    errorXQ15: bv16, errorYQ15: bv16, confidence: bv16, captureAgeAtTxMs: bv16)
    | Status(mcuState: byte, linkState: byte, remoteStopLatched: byte, controlValid: byte,
             lastRxWireSequence: bv32, lastControlWireSequence: bv32, rxValidFrames: bv32,
             rxCrcErrors: bv32, rxLengthErrors: bv32, rxVersionErrors: bv32, rxUnknownTypes: bv32,
             rxSequenceGaps: bv32, rxOverflows: bv32, mailboxOverwrites: bv32, mcuTickMs: bv32,
             panStubQ15: bv16, tiltStubQ15: bv16)
    | RemoteStopRequest(transactionId: bv32, reasonCode: bv16)
    | ClearRemoteStop(transactionId: bv32)
    | Ack(ackedType: byte, result: bv16, transactionId: bv32, detail: bv16)
    | Nack(ackedType: byte, result: bv16, transactionId: bv32, detail: bv16)
    | Ping(pingId: bv32)
    | Pong(pingId: bv32, pingWireSequence: bv32)

  function TypeOf(body: Body): MessageType {
    match body
    case Hello(_, _, _, _, _, _, _, _, _) => HELLO
    case HelloAck(_, _, _, _, _, _, _, _, _, _, _) => HELLO_ACK
    case Heartbeat => HEARTBEAT
    case ControlUpdate(_, _, _, _, _, _, _, _, _, _, _) => CONTROL_UPDATE
    case Status(_, _, _, _, _, _, _, _, _, _, _, _, _, _, _, _, _) => STATUS
    case RemoteStopRequest(_, _) => REMOTE_STOP_REQUEST
    case ClearRemoteStop(_) => CLEAR_REMOTE_STOP
    case Ack(_, _, _, _) => ACK
    case Nack(_, _, _, _) => NACK
    case Ping(_) => PING
    case Pong(_, _) => PONG
  }

  // ---- what one Append call writes and one Read call reads ----

  datatype Field = U8(u8: byte) | U16(u16: bv16) | U32(u32: bv32)
  datatype Width = W8 | W16 | W32

  function Size(width: Width): (n: nat)
  {
    match width case W8 => 1 case W16 => 2 case W32 => 4
  }

  function WidthOf(field: Field): Width {
    match field case U8(_) => W8 case U16(_) => W16 case U32(_) => W32
  }

  function Bytes(field: Field): (bytes: seq<byte>)
    ensures |bytes| == Size(WidthOf(field))
  {
    match field
    case U8(v) => [v]
    case U16(v) => Le16(v)
    case U32(v) => Le32(v)
  }

  function ReadField(data: seq<byte>, width: Width): (field: Field)
    requires Size(width) <= |data|
  {
    match width
    case W8 => U8(data[0])
    case W16 => U16(At16(data, 0))
    case W32 => U32(At32(data, 0))
  }

  function Pack(fields: seq<Field>): seq<byte> {
    if fields == [] then [] else Bytes(fields[0]) + Pack(fields[1..])
  }

  // The reads that a decoder makes one after another; each fails when too few bytes are left.
  function Unpack(data: seq<byte>, widths: seq<Width>): Option<seq<Field>>
    decreases |widths|
  {
    if widths == [] then Some([])
    else if |data| < Size(widths[0]) then None
    else
      match Unpack(data[Size(widths[0])..], widths[1..])
      case None => None
      case Some(rest) => Some([ReadField(data, widths[0])] + rest)
  }

  function WidthsOf(fields: seq<Field>): (widths: seq<Width>)
    ensures |widths| == |fields|
  {
    seq(|fields|, i requires 0 <= i < |fields| => WidthOf(fields[i]))
  }

  function Total(widths: seq<Width>): nat {
    if widths == [] then 0 else Size(widths[0]) + Total(widths[1..])
  }

  lemma FieldReads(field: Field, data: seq<byte>)
    requires Size(WidthOf(field)) <= |data|
    ensures Bytes(field) == data[..Size(WidthOf(field))] <==> ReadField(data, WidthOf(field)) == field
  {
    match field {
      case U8(v) => assert data[..1] == [data[0]];
      case U16(v) => Read16(data, 0, v);
      case U32(v) => Read32(data, 0, v);
    }
  }

  lemma {:induction false} PackUnpacks(fields: seq<Field>)
    ensures Unpack(Pack(fields), WidthsOf(fields)) == Some(fields)
    ensures |Pack(fields)| == Total(WidthsOf(fields))
    decreases |fields|
  {
    if fields != [] {
      var data, n := Pack(fields), Size(WidthOf(fields[0]));
      PackUnpacks(fields[1..]);
      assert WidthsOf(fields)[1..] == WidthsOf(fields[1..]);
      assert data[..n] == Bytes(fields[0]) && data[n..] == Pack(fields[1..]);
      FieldReads(fields[0], data);
      assert fields == [fields[0]] + fields[1..];
    }
  }

  lemma UnpackFirst(data: seq<byte>, widths: seq<Width>, rest: seq<Field>)
    requires widths != [] && Size(widths[0]) <= |data|
    requires Pack(rest) == data[Size(widths[0])..] && WidthsOf(rest) == widths[1..]
    ensures Pack([ReadField(data, widths[0])] + rest) == data
    ensures WidthsOf([ReadField(data, widths[0])] + rest) == widths
  {
    var first := ReadField(data, widths[0]);
    FieldReads(first, data);
    assert ([first] + rest)[1..] == rest;
  }

  lemma {:induction false} UnpackedPacks(data: seq<byte>, widths: seq<Width>)
    requires |data| == Total(widths)
    ensures Unpack(data, widths).Some?
    ensures var fields := Unpack(data, widths).value; Pack(fields) == data && WidthsOf(fields) == widths
    decreases |widths|
  {
    if widths != [] {
      var n := Size(widths[0]);
      UnpackedPacks(data[n..], widths[1..]);
      UnpackFirst(data, widths, Unpack(data[n..], widths[1..]).value);
    }
  }

  // ---- the layouts ----

  function FieldsOf(body: Body): seq<Field> {
    match body
    case Hello(role, minimum, maximum, maxPayload, rate, capabilities, major, minor, patch) =>
      [U8(role), U8(minimum), U8(maximum), U8(0), U16(maxPayload), U16(rate), U32(capabilities),
       U16(major), U16(minor), U16(patch), U16(0)]
    case HelloAck(hello, accepted, selected, role, code, maxPayload, rate, capabilities, major, minor, patch) =>
      [U32(hello), U8(accepted), U8(selected), U8(role), U8(code), U16(maxPayload), U16(rate),
       U32(capabilities), U16(major), U16(minor), U16(patch), U16(0)]
    case Heartbeat => []
    case ControlUpdate(session, frame, sequence, state, flags, dx, dy, ex, ey, confidence, age) =>
      [U32(session), U32(frame), U32(sequence), U8(state), U8(flags),
       U16(dx), U16(dy), U16(ex), U16(ey), U16(confidence), U16(age)]
    case Status(mcu, link, latched, valid, lastRx, lastControl, frames, crc, length, version,
                unknown, gaps, overflows, overwrites, tick, pan, tilt) =>
      [U8(mcu), U8(link), U8(latched), U8(valid)]
      + [U32(lastRx), U32(lastControl), U32(frames), U32(crc), U32(length), U32(version), U32(unknown),
         U32(gaps), U32(overflows), U32(overwrites), U32(tick)]
      + [U16(pan), U16(tilt)]
    case RemoteStopRequest(transaction, reason) => [U32(transaction), U16(reason), U16(0)]
    case ClearRemoteStop(transaction) => [U32(transaction)]
    case Ack(acked, result, transaction, detail) =>
      [U8(acked), U8(0), U16(result), U32(transaction), U16(detail), U16(0)]
    case Nack(acked, result, transaction, detail) =>
      [U8(acked), U8(0), U16(result), U32(transaction), U16(detail), U16(0)]
    case Ping(id) => [U32(id)]
    case Pong(id, sequence) => [U32(id), U32(sequence)]
  }

  function PayloadSize(messageType: MessageType): nat {
    match messageType
    case HELLO => 20
    case HELLO_ACK => 24
    case HEARTBEAT => 0
    case CONTROL_UPDATE => 26
    case STATUS => 52
    case REMOTE_STOP_REQUEST => 8
    case CLEAR_REMOTE_STOP => 4
    case ACK => 12
    case NACK => 12
    case PING => 4
    case PONG => 8
  }

  function Shape(messageType: MessageType): seq<Width> {
    match messageType
    case HELLO => [W8, W8, W8, W8, W16, W16, W32, W16, W16, W16, W16]
    case HELLO_ACK => [W32, W8, W8, W8, W8, W16, W16, W32, W16, W16, W16, W16]
    case HEARTBEAT => []
    case CONTROL_UPDATE => [W32, W32, W32, W8, W8, W16, W16, W16, W16, W16, W16]
    case STATUS =>
      [W8, W8, W8, W8] + [W32, W32, W32, W32, W32, W32, W32, W32, W32, W32, W32] + [W16, W16]
    case REMOTE_STOP_REQUEST => [W32, W16, W16]
    case CLEAR_REMOTE_STOP => [W32]
    case ACK => [W8, W8, W16, W32, W16, W16]
    case NACK => [W8, W8, W16, W32, W16, W16]
    case PING => [W32]
    case PONG => [W32, W32]
  }

  // The field read at a place, as the type that its Read call gives.
  function B(f: seq<Field>, i: nat): byte
    requires i < |f|
  {
    if f[i].U8? then f[i].u8 else 0
  }

  function H(f: seq<Field>, i: nat): bv16
    requires i < |f|
  {
    if f[i].U16? then f[i].u16 else 0
  }

  function W(f: seq<Field>, i: nat): bv32
    requires i < |f|
  {
    if f[i].U32? then f[i].u32 else 0
  }

  // The values read, put into the message; reserved fields must be zero.
  function BodyOf(messageType: MessageType, f: seq<Field>): Option<Body>
    requires |f| == |Shape(messageType)|
  {
    match messageType
    case HELLO =>
      if B(f, 3) != 0 || H(f, 10) != 0 then None
      else Some(Hello(B(f, 0), B(f, 1), B(f, 2), H(f, 4), H(f, 5), W(f, 6),
                      H(f, 7), H(f, 8), H(f, 9)))
    case HELLO_ACK =>
      if H(f, 11) != 0 then None
      else Some(HelloAck(W(f, 0), B(f, 1), B(f, 2), B(f, 3), B(f, 4), H(f, 5), H(f, 6),
                         W(f, 7), H(f, 8), H(f, 9), H(f, 10)))
    case HEARTBEAT => Some(Heartbeat)
    case CONTROL_UPDATE =>
      if B(f, 4) & 0xFE != 0 then None
      else Some(ControlUpdate(W(f, 0), W(f, 1), W(f, 2), B(f, 3), B(f, 4),
                              H(f, 5), H(f, 6), H(f, 7), H(f, 8), H(f, 9), H(f, 10)))
    case STATUS =>
      Some(Status(B(f, 0), B(f, 1), B(f, 2), B(f, 3), W(f, 4), W(f, 5), W(f, 6), W(f, 7),
                  W(f, 8), W(f, 9), W(f, 10), W(f, 11), W(f, 12), W(f, 13), W(f, 14),
                  H(f, 15), H(f, 16)))
    case REMOTE_STOP_REQUEST =>
      if H(f, 2) != 0 then None else Some(RemoteStopRequest(W(f, 0), H(f, 1)))
    case CLEAR_REMOTE_STOP => Some(ClearRemoteStop(W(f, 0)))
    case ACK =>
      if B(f, 1) != 0 || H(f, 5) != 0 then None
      else Some(Ack(B(f, 0), H(f, 2), W(f, 3), H(f, 4)))
    case NACK =>
      if B(f, 1) != 0 || H(f, 5) != 0 then None
      else Some(Nack(B(f, 0), H(f, 2), W(f, 3), H(f, 4)))
    case PING => Some(Ping(W(f, 0)))
    case PONG => Some(Pong(W(f, 0), W(f, 1)))
  }

  // ---- the payload codec ----

  predicate Encodable(body: Body) {
    body.ControlUpdate? ==> body.controlFlags & 0xFE == 0
  }

  function EncodePayload(body: Body): (payload: Option<seq<byte>>) {
    if Encodable(body) then Some(Pack(FieldsOf(body))) else None
  }

  function DecodePayload(messageType: MessageType, payload: seq<byte>): (body: Option<Body>) {
    if |payload| != PayloadSize(messageType) then None
    else
      ShapeSize(messageType);
      UnpackedPacks(payload, Shape(messageType));
      BodyOf(messageType, Unpack(payload, Shape(messageType)).value)
  }

  // The sum from the right end; a literal list unfolds from there step by step.
  lemma {:induction false} TotalSnoc(widths: seq<Width>, width: Width)
    ensures Total(widths + [width]) == Total(widths) + Size(width)
    decreases |widths|
  {
    if widths == [] {
      assert [width][1..] == [];
    } else {
      assert (widths + [width])[1..] == widths[1..] + [width];
      TotalSnoc(widths[1..], width);
    }
  }

  function Repeat(width: Width, n: nat): (widths: seq<Width>)
    ensures |widths| == n
  {
    seq(n, _ => width)
  }

  lemma {:induction false} TotalRun(widths: seq<Width>, width: Width, n: nat)
    ensures Total(widths + Repeat(width, n)) == Total(widths) + n * Size(width)
  {
    if n == 0 {
      assert widths + Repeat(width, 0) == widths;
    } else {
      TotalRun(widths, width, n - 1);
      TotalSnoc(widths + Repeat(width, n - 1), width);
      assert widths + Repeat(width, n) == widths + Repeat(width, n - 1) + [width];
    }
  }

  lemma Total3(a: Width, i: nat, b: Width, j: nat, c: Width, k: nat)
    ensures Total(Repeat(a, i) + Repeat(b, j) + Repeat(c, k)) == i * Size(a) + j * Size(b) + k * Size(c)
  {
    TotalRun([], a, i);
    assert [] + Repeat(a, i) == Repeat(a, i);
    TotalRun(Repeat(a, i), b, j);
    TotalRun(Repeat(a, i) + Repeat(b, j), c, k);
  }

  lemma Total5(a: Width, i: nat, b: Width, j: nat, c: Width, k: nat, d: Width, l: nat, e: Width, m: nat)
    ensures Total(Repeat(a, i) + Repeat(b, j) + Repeat(c, k) + Repeat(d, l) + Repeat(e, m))
         == i * Size(a) + j * Size(b) + k * Size(c) + l * Size(d) + m * Size(e)
  {
    Total3(a, i, b, j, c, k);
    TotalRun(Repeat(a, i) + Repeat(b, j) + Repeat(c, k), d, l);
    TotalRun(Repeat(a, i) + Repeat(b, j) + Repeat(c, k) + Repeat(d, l), e, m);
  }

  lemma HelloSize()
    ensures Total(Shape(HELLO)) == 20
  {
    Total5(W8, 4, W16, 2, W32, 1, W16, 4, W8, 0);
    assert Shape(HELLO) == Repeat(W8, 4) + Repeat(W16, 2) + Repeat(W32, 1) + Repeat(W16, 4) + Repeat(W8, 0);
  }

  lemma HelloAckSize()
    ensures Total(Shape(HELLO_ACK)) == 24
  {
    Total5(W32, 1, W8, 4, W16, 2, W32, 1, W16, 4);
    assert Shape(HELLO_ACK)
        == Repeat(W32, 1) + Repeat(W8, 4) + Repeat(W16, 2) + Repeat(W32, 1) + Repeat(W16, 4);
  }

  lemma ControlUpdateSize()
    ensures Total(Shape(CONTROL_UPDATE)) == 26
  {
    Total3(W32, 3, W8, 2, W16, 6);
    assert Shape(CONTROL_UPDATE) == Repeat(W32, 3) + Repeat(W8, 2) + Repeat(W16, 6);
  }

  lemma StatusSize()
    ensures Total(Shape(STATUS)) == 52
  {
    Total3(W8, 4, W32, 11, W16, 2);
    assert Repeat(W32, 11) == [W32, W32, W32, W32, W32, W32, W32, W32, W32, W32, W32];
    assert Shape(STATUS) == Repeat(W8, 4) + Repeat(W32, 11) + Repeat(W16, 2);
  }

  lemma ShapeSize(messageType: MessageType)
    ensures Total(Shape(messageType)) == PayloadSize(messageType)
  {
    match messageType {
      case HELLO => HelloSize();
      case HELLO_ACK => HelloAckSize();
      case HEARTBEAT =>
      case CONTROL_UPDATE => ControlUpdateSize();
      case STATUS => StatusSize();
      case REMOTE_STOP_REQUEST =>
        Total3(W32, 1, W16, 2, W8, 0);
        assert Shape(REMOTE_STOP_REQUEST) == Repeat(W32, 1) + Repeat(W16, 2) + Repeat(W8, 0);
      case CLEAR_REMOTE_STOP =>
      case ACK => AckSize();
      case NACK => AckSize();
      case PING =>
      case PONG =>
        Total3(W32, 2, W8, 0, W8, 0);
        assert Shape(PONG) == Repeat(W32, 2) + Repeat(W8, 0) + Repeat(W8, 0);
    }
  }

  lemma AckSize()
    ensures Total(Shape(ACK)) == 12
  {
    Total5(W8, 2, W16, 1, W32, 1, W16, 2, W8, 0);
    assert Shape(ACK) == Repeat(W8, 2) + Repeat(W16, 1) + Repeat(W32, 1) + Repeat(W16, 2) + Repeat(W8, 0);
  }

  lemma HelloShape(body: Body)
    requires body.Hello?
    ensures WidthsOf(FieldsOf(body)) == Shape(TypeOf(body))
  {
  }

  lemma HelloAckShape(body: Body)
    requires body.HelloAck?
    ensures WidthsOf(FieldsOf(body)) == Shape(TypeOf(body))
  {
  }

  lemma ControlUpdateShape(body: Body)
    requires body.ControlUpdate?
    ensures WidthsOf(FieldsOf(body)) == Shape(TypeOf(body))
  {
  }

  lemma WidthsAppend(a: seq<Field>, b: seq<Field>, c: seq<Field>)
    ensures WidthsOf(a + b + c) == WidthsOf(a) + WidthsOf(b) + WidthsOf(c)
  {
  }

  lemma StatusShape(body: Body)
    requires body.Status?
    ensures WidthsOf(FieldsOf(body)) == Shape(TypeOf(body))
  {
    var f := FieldsOf(body);
    var a, b, c := f[..4], f[4..15], f[15..];
    WidthsAppend(a, b, c);
    assert f == a + b + c;
    assert WidthsOf(a) == [W8, W8, W8, W8] && WidthsOf(c) == [W16, W16];
    assert WidthsOf(b) == [W32, W32, W32, W32, W32, W32, W32, W32, W32, W32, W32];
  }

  lemma AnswerShape(body: Body)
    requires body.Ack? || body.Nack?
    ensures WidthsOf(FieldsOf(body)) == Shape(TypeOf(body))
  {
  }

  lemma SmallShape(body: Body)
    requires body.Heartbeat? || body.RemoteStopRequest? || body.ClearRemoteStop? || body.Ping? || body.Pong?
    ensures WidthsOf(FieldsOf(body)) == Shape(TypeOf(body))
  {
  }

  lemma FieldsHaveShape(body: Body)
    ensures WidthsOf(FieldsOf(body)) == Shape(TypeOf(body))
  {
    match body {
      case Hello(_, _, _, _, _, _, _, _, _) => HelloShape(body);
      case HelloAck(_, _, _, _, _, _, _, _, _, _, _) => HelloAckShape(body);
      case ControlUpdate(_, _, _, _, _, _, _, _, _, _, _) => ControlUpdateShape(body);
      case Status(_, _, _, _, _, _, _, _, _, _, _, _, _, _, _, _, _) => StatusShape(body);
      case RemoteStopRequest(_, _) => SmallShape(body);
      case ClearRemoteStop(_) => SmallShape(body);
      case Ack(_, _, _, _) => AnswerShape(body);
      case Nack(_, _, _, _) => AnswerShape(body);
      case Ping(_) => SmallShape(body);
      case Pong(_, _) => SmallShape(body);
      case Heartbeat => SmallShape(body);
    }
  }

  lemma HelloBodyBack(body: Body)
    requires (body.Hello?) && WidthsOf(FieldsOf(body)) == Shape(TypeOf(body))
    ensures BodyOf(TypeOf(body), FieldsOf(body)) == Some(body)
  {
  }

  lemma HelloAckBodyBack(body: Body)
    requires (body.HelloAck?) && WidthsOf(FieldsOf(body)) == Shape(TypeOf(body))
    ensures BodyOf(TypeOf(body), FieldsOf(body)) == Some(body)
  {
  }

  lemma ControlUpdateBodyBack(body: Body)
    requires (body.ControlUpdate? && Encodable(body)) && WidthsOf(FieldsOf(body)) == Shape(TypeOf(body))
    ensures BodyOf(TypeOf(body), FieldsOf(body)) == Some(body)
  {
  }

  lemma StatusBodyBack(body: Body)
    requires (body.Status?) && WidthsOf(FieldsOf(body)) == Shape(TypeOf(body))
    ensures BodyOf(TypeOf(body), FieldsOf(body)) == Some(body)
  {
  }

  lemma AnswerBodyBack(body: Body)
    requires (body.Ack? || body.Nack?) && WidthsOf(FieldsOf(body)) == Shape(TypeOf(body))
    ensures BodyOf(TypeOf(body), FieldsOf(body)) == Some(body)
  {
  }

  lemma SmallBodyBack(body: Body)
    requires body.Heartbeat? || body.RemoteStopRequest? || body.ClearRemoteStop? || body.Ping? || body.Pong?
    requires WidthsOf(FieldsOf(body)) == Shape(TypeOf(body))
    ensures BodyOf(TypeOf(body), FieldsOf(body)) == Some(body)
  {
  }

  lemma BodyBack(body: Body)
    requires Encodable(body) && WidthsOf(FieldsOf(body)) == Shape(TypeOf(body))
    ensures BodyOf(TypeOf(body), FieldsOf(body)) == Some(body)
  {
    match body {
      case Hello(_, _, _, _, _, _, _, _, _) => HelloBodyBack(body);
      case HelloAck(_, _, _, _, _, _, _, _, _, _, _) => HelloAckBodyBack(body);
      case ControlUpdate(_, _, _, _, _, _, _, _, _, _, _) => ControlUpdateBodyBack(body);
      case Status(_, _, _, _, _, _, _, _, _, _, _, _, _, _, _, _, _) => StatusBodyBack(body);
      case RemoteStopRequest(_, _) => SmallBodyBack(body);
      case ClearRemoteStop(_) => SmallBodyBack(body);
      case Ack(_, _, _, _) => AnswerBodyBack(body);
      case Nack(_, _, _, _) => AnswerBodyBack(body);
      case Ping(_) => SmallBodyBack(body);
      case Pong(_, _) => SmallBodyBack(body);
      case Heartbeat => SmallBodyBack(body);
    }
  }

  lemma SameField(f: seq<Field>, messageType: MessageType, i: nat)
    requires WidthsOf(f) == Shape(messageType) && i < |f|
    ensures f[i] == match Shape(messageType)[i]
                    case W8 => U8(f[i].u8)
                    case W16 => U16(f[i].u16)
                    case W32 => U32(f[i].u32)
  {
    assert WidthOf(f[i]) == WidthsOf(f)[i];
  }

  lemma HelloBack(f: seq<Field>)
    requires WidthsOf(f) == Shape(HELLO) && BodyOf(HELLO, f).Some?
    ensures FieldsOf(BodyOf(HELLO, f).value) == f
  {
    forall i | 0 <= i < |f| {
      SameField(f, HELLO, i);
    }
  }

  lemma HelloAckBack(f: seq<Field>)
    requires WidthsOf(f) == Shape(HELLO_ACK) && BodyOf(HELLO_ACK, f).Some?
    ensures FieldsOf(BodyOf(HELLO_ACK, f).value) == f
  {
    forall i | 0 <= i < |f| {
      SameField(f, HELLO_ACK, i);
    }
  }

  lemma ControlUpdateBack(f: seq<Field>)
    requires WidthsOf(f) == Shape(CONTROL_UPDATE) && BodyOf(CONTROL_UPDATE, f).Some?
    ensures FieldsOf(BodyOf(CONTROL_UPDATE, f).value) == f
  {
    forall i | 0 <= i < |f| {
      SameField(f, CONTROL_UPDATE, i);
    }
  }

  lemma StatusBytes(f: seq<Field>)
    requires WidthsOf(f) == Shape(STATUS)
    ensures f[..4] == [U8(B(f, 0)), U8(B(f, 1)), U8(B(f, 2)), U8(B(f, 3))]
  {
    forall i | 0 <= i < 4 {
      SameField(f, STATUS, i);
    }
  }

  lemma StatusWords(f: seq<Field>)
    requires WidthsOf(f) == Shape(STATUS)
    ensures f[4..15] == [U32(W(f, 4)), U32(W(f, 5)), U32(W(f, 6)), U32(W(f, 7)), U32(W(f, 8)), U32(W(f, 9)),
                         U32(W(f, 10)), U32(W(f, 11)), U32(W(f, 12)), U32(W(f, 13)), U32(W(f, 14))]
  {
    forall i | 4 <= i < 15 {
      SameField(f, STATUS, i);
    }
  }

  lemma StatusHalves(f: seq<Field>)
    requires WidthsOf(f) == Shape(STATUS)
    ensures f[15..] == [U16(H(f, 15)), U16(H(f, 16))]
  {
    forall i | 15 <= i < 17 {
      SameField(f, STATUS, i);
    }
  }

  lemma StatusBack(f: seq<Field>)
    requires WidthsOf(f) == Shape(STATUS) && BodyOf(STATUS, f).Some?
    ensures FieldsOf(BodyOf(STATUS, f).value) == f
  {
    StatusBytes(f);
    StatusWords(f);
    StatusHalves(f);
    assert f == f[..4] + f[4..15] + f[15..];
  }

  lemma AckBack(f: seq<Field>)
    requires WidthsOf(f) == Shape(ACK) && BodyOf(ACK, f).Some?
    ensures FieldsOf(BodyOf(ACK, f).value) == f
  {
    forall i | 0 <= i < |f| {
      SameField(f, ACK, i);
    }
  }

  lemma NackBack(f: seq<Field>)
    requires WidthsOf(f) == Shape(NACK) && BodyOf(NACK, f).Some?
    ensures FieldsOf(BodyOf(NACK, f).value) == f
  {
    forall i | 0 <= i < |f| {
      SameField(f, NACK, i);
    }
  }

  lemma StopBack(f: seq<Field>)
    requires WidthsOf(f) == Shape(REMOTE_STOP_REQUEST) && BodyOf(REMOTE_STOP_REQUEST, f).Some?
    ensures FieldsOf(BodyOf(REMOTE_STOP_REQUEST, f).value) == f
  {
    forall i | 0 <= i < |f| {
      SameField(f, REMOTE_STOP_REQUEST, i);
    }
  }

  lemma ClearBack(f: seq<Field>)
    requires WidthsOf(f) == Shape(CLEAR_REMOTE_STOP) && BodyOf(CLEAR_REMOTE_STOP, f).Some?
    ensures FieldsOf(BodyOf(CLEAR_REMOTE_STOP, f).value) == f
  {
    forall i | 0 <= i < |f| {
      SameField(f, CLEAR_REMOTE_STOP, i);
    }
  }

  lemma PingBack(f: seq<Field>)
    requires WidthsOf(f) == Shape(PING) && BodyOf(PING, f).Some?
    ensures FieldsOf(BodyOf(PING, f).value) == f
  {
    forall i | 0 <= i < |f| {
      SameField(f, PING, i);
    }
  }

  lemma PongBack(f: seq<Field>)
    requires WidthsOf(f) == Shape(PONG) && BodyOf(PONG, f).Some?
    ensures FieldsOf(BodyOf(PONG, f).value) == f
  {
    forall i | 0 <= i < |f| {
      SameField(f, PONG, i);
    }
  }

  lemma FieldsBack(messageType: MessageType, fields: seq<Field>)
    requires WidthsOf(fields) == Shape(messageType) && BodyOf(messageType, fields).Some?
    ensures var body := BodyOf(messageType, fields).value;
            Encodable(body) && TypeOf(body) == messageType && FieldsOf(body) == fields
  {
    match messageType {
      case HELLO => HelloBack(fields);
      case HELLO_ACK => HelloAckBack(fields);
      case HEARTBEAT =>
      case CONTROL_UPDATE => ControlUpdateBack(fields);
      case STATUS => StatusBack(fields);
      case REMOTE_STOP_REQUEST => StopBack(fields);
      case CLEAR_REMOTE_STOP => ClearBack(fields);
      case ACK => AckBack(fields);
      case NACK => NackBack(fields);
      case PING => PingBack(fields);
      case PONG => PongBack(fields);
    }
  }

  lemma PackedDecodes(messageType: MessageType, fields: seq<Field>, body: Body)
    requires WidthsOf(fields) == Shape(messageType) && BodyOf(messageType, fields) == Some(body)
    ensures |Pack(fields)| == PayloadSize(messageType)
    ensures DecodePayload(messageType, Pack(fields)) == Some(body)
  {
    PackUnpacks(fields);
    ShapeSize(messageType);
  }

  lemma FieldsRoundTrip(body: Body)
    requires Encodable(body)
    ensures DecodePayload(TypeOf(body), Pack(FieldsOf(body))) == Some(body)
    ensures |Pack(FieldsOf(body))| == PayloadSize(TypeOf(body))
  {
    FieldsHaveShape(body);
    BodyBack(body);
    PackedDecodes(TypeOf(body), FieldsOf(body), body);
  }

  // Every payload that is written has the size of its message and reads back.
  lemma PayloadRoundTrip(body: Body, payload: seq<byte>)
    requires EncodePayload(body) == Some(payload)
    ensures DecodePayload(TypeOf(body), payload) == Some(body)
    ensures |payload| == PayloadSize(TypeOf(body)) <= MAX_PAYLOAD_SIZE
  {
    FieldsRoundTrip(body);
  }

  // Every payload that is accepted is the one that its message would write.
  lemma PayloadRoundTripBack(messageType: MessageType, payload: seq<byte>)
    requires DecodePayload(messageType, payload).Some?
    ensures var body := DecodePayload(messageType, payload).value;
            TypeOf(body) == messageType && EncodePayload(body) == Some(payload)
  {
    ShapeSize(messageType);
    UnpackedPacks(payload, Shape(messageType));
    FieldsBack(messageType, Unpack(payload, Shape(messageType)).value);
  }

  // ---- messages ----

  datatype Message = Message(header: Header, body: Body)

  ghost function EncodeMessage(message: Message): Option<seq<byte>> {
    if message.header.messageType != TypeOf(message.body) then None
    else
      match EncodePayload(message.body)
      case None => None
      case Some(payload) => Encoded(message.header, payload)
  }

  function DecodeMessage(frame: Frame): Option<Message> {
    if |frame.payload| != frame.header.payloadLength as nat then None
    else
      match DecodePayload(frame.header.messageType, frame.payload)
      case None => None
      case Some(body) => Some(Message(frame.header, body))
  }

  function Filled(message: Message): Message {
    message.(header := message.header.(payloadLength := PayloadSize(TypeOf(message.body)) as bv16))
  }

  lemma FrameCarries(header: Header, body: Body, payload: seq<byte>)
    requires |payload| <= MAX_PAYLOAD_SIZE && DecodePayload(header.messageType, payload) == Some(body)
    ensures var filled := header.(payloadLength := Length(|payload|));
            DecodeMessage(Frame(filled, payload)) == Some(Message(filled, body))
  {
    LengthFits(|payload|);
  }

  lemma Delivered(p: UartParsers.Parser, header: Header, body: Body, payload: seq<byte>, now: nat)
    requires Sendable(header, payload) && DecodePayload(header.messageType, payload) == Some(body)
    ensures var frames := UartParsers.Fed(p, Encoded(header, payload).value, now).1;
      && 1 <= |frames| <= 2
      && DecodeMessage(frames[|frames| - 1])
           == Some(Message(header.(payloadLength := Length(|payload|)), body))
  {
    UartParsers.Resynchronises(p, header, payload, now);
    FrameCarries(header, body, payload);
  }

  lemma MessageEncodes(message: Message) returns (payload: seq<byte>)
    requires EncodeMessage(message).Some?
    ensures Sendable(message.header, payload)
    ensures EncodeMessage(message) == Encoded(message.header, payload)
    ensures |payload| == PayloadSize(TypeOf(message.body))
    ensures DecodePayload(message.header.messageType, payload) == Some(message.body)
  {
    payload := EncodePayload(message.body).value;
    PayloadRoundTrip(message.body, payload);
  }

  // Every frame the link sends has an encoding: the frames of UartLinks are never empty.
  lemma SentMessagesEncode(header: Header, body: Body)
    requires header.version == PROTOCOL_VERSION && header.messageType == TypeOf(body) && Encodable(body)
    ensures EncodeMessage(Message(header, body)).Some?
    ensures |EncodeMessage(Message(header, body)).value| >= 2 + HEADER_SIZE + CRC_SIZE
  {
    PayloadRoundTrip(body, EncodePayload(body).value);
  }

  // Whatever the parser was doing, an encoded message is the last one it delivers,
  // complete, and at most one frame comes before it.
  lemma MessageRoundTrip(p: UartParsers.Parser, message: Message, now: nat)
    requires EncodeMessage(message).Some?
    ensures |EncodeMessage(message).value| <= MAX_ENCODED_FRAME_SIZE
    ensures var frames := UartParsers.Fed(p, EncodeMessage(message).value, now).1;
            1 <= |frames| <= 2 && DecodeMessage(frames[|frames| - 1]) == Some(Filled(message))
  {
    var payload := MessageEncodes(message);
    Delivered(p, message.header, message.body, payload, now);
  }

  // A decoded message encodes to the delimited bytes of the frame it came in.
  lemma MessageRoundTripBack(raw: seq<byte>)
    requires Decode(raw).Accepted? && DecodeMessage(Decode(raw).frame).Some?
    ensures EncodeMessage(DecodeMessage(Decode(raw).frame).value) == Some(Delimited(raw))
  {
    var frame := Decode(raw).frame;
    DecodedIsRaw(raw);
    PayloadRoundTripBack(frame.header.messageType, frame.payload);
  }
}
