/**
 The stop-and-wait link: one I/O thread that opens the port, negotiates, sends one
 frame at a time, waits for its answer, retries reliable requests and recovers
 from losses, and the calls other threads make into it. Each step below is one
 region of the I/O loop or one such call; what the clock, the port and the peer
 do are parameters of the step.
 */
module UartLinks {
  import opened Wrappers
  import opened Octets
  import opened UartFrames
  import opened UartSequences
  import opened UartReliable
  import H = UartHealth

  datatype LinkState = CLOSED | OPENING | NEGOTIATING | READY | DEGRADED | LINK_LOST

  datatype ResponseKind = AwaitNothing | AwaitHelloAck | AwaitStatus | AwaitPong | AwaitReliable

  datatype Window = Window(kind: ResponseKind, deadline: nat, expectedId: uint32)

  const NO_WINDOW := Window(AwaitNothing, 0, 0)

  // `serial` numbers the reliable transactions; it is 0 for every other frame.
  datatype TxFrame = TxFrame(bytes: seq<byte>, offset: nat, messageType: MessageType,
                             response: ResponseKind, expectedId: uint32, retry: bool, serial: nat)

  datatype Request = Request(messageType: MessageType, transactionId: uint32, reason: bv16)

  datatype Config = Config(
    openRetry: nat, helloPeriod: nat, heartbeatPeriod: nat, controlPeriod: nat,
    responseTimeout: nat, reliableTimeout: nat, maxRetries: nat, watchdogTimeout: nat,
    expectedRole: byte)

  // What Start checks.
  predicate Usable(c: Config) {
    c.responseTimeout > 0 && c.reliableTimeout > 0
  }

  datatype Port = Port(open: bool, state: LinkState, tx: Option<TxFrame>, wait: Window,
                       reliable: Transaction, outstandingType: MessageType)

  datatype Desk = Desk(pending: Option<Request>, busy: bool, nextTransactionId: uint32,
                       ping: Option<uint32>, nextPingId: uint32,
                       requests: nat, acks: nat, nacks: nat, failures: nat)

  datatype Peer = Peer(tracker: Tracker, bootId: uint32, bootValid: bool)

  datatype Health = Health(record: H.Projection, confirmed: Option<uint32>, everReady: bool)

  datatype Timers = Timers(nextOpen: nat, nextHello: nat, nextHeartbeat: nat, nextControl: nat,
                           haveValidRx: bool, lastValidRx: nat, clock: nat, passNow: nat)

  // `started`, `begun` and `helloSequence` are history: the frames put up for
  // transmission, the number of transactions begun, the sequence of the last HELLO.
  datatype Outbox = Outbox(nextWireSequence: uint32, started: seq<TxFrame>, begun: nat, helloSequence: uint32)

  datatype Phase = Head | Timing | Scheduling | Polling | Reading | Writing

  datatype Link = Link(port: Port, desk: Desk, peer: Peer, health: Health, timers: Timers, log: Outbox,
                       phase: Phase)

  // ---- health ----

  function Noted(h: Health, status: H.Status, reason: H.Reason, boot: Option<uint32>, newSession: bool): Health {
    h.(record := H.Recorded(h.record, status, reason, boot, newSession))
  }

  function HealthOnState(h: Health, previous: LinkState, state: LinkState): Health {
    var current := h.record.current;
    match state
    case OPENING =>
      Noted(h, if H.Adverse(current.status) then current.status else H.CONNECTING,
            if current.reason == H.peer_reboot then H.peer_reboot else H.opening, h.confirmed, false)
    case NEGOTIATING =>
      Noted(h, if H.Adverse(current.status) then current.status else H.CONNECTING,
            if current.reason == H.peer_reboot then H.peer_reboot else H.negotiating, h.confirmed,
            previous == OPENING || previous == LINK_LOST)
    case READY =>
      Noted(h, H.HEALTHY,
            if h.everReady && current.status != H.HEALTHY then H.recovered
            else if current.status == H.HEALTHY then current.reason else H.ready, h.confirmed, false)
        .(everReady := true)
    case DEGRADED =>
      Noted(h, if current.status == H.UNHEALTHY then H.UNHEALTHY else H.DEGRADED,
            if current.status == H.UNHEALTHY then current.reason else H.response_timeout, h.confirmed, false)
    case LINK_LOST => Noted(h, H.UNHEALTHY, H.link_lost, h.confirmed, false)
    case CLOSED => h
  }

  function AtLeastDegraded(h: Health): H.Status {
    if h.record.current.status == H.UNHEALTHY then H.UNHEALTHY else H.DEGRADED
  }

  function ConfirmedBoot(h: Health, peer: Peer): Health {
    if !peer.bootValid then h
    else
      var noted := if h.confirmed.Some? && h.confirmed.value != peer.bootId
                   then Noted(h, AtLeastDegraded(h), H.peer_reboot, Some(peer.bootId), false) else h;
      noted.(confirmed := Some(peer.bootId))
  }

  function PeerRenegotiation(h: Health): Health {
    Noted(h, AtLeastDegraded(h), H.peer_reboot, h.confirmed, true)
  }

  function SetState(l: Link, state: LinkState): Link {
    l.(port := l.port.(state := state), health := HealthOnState(l.health, l.port.state, state))
  }

  // ---- calls from other threads ----

  function NextNonzero(value: uint32): uint32 {
    var next := (value + 1) % MODULUS;
    if next == 0 then 1 else next
  }

  datatype Ask = Ask(messageType: MessageType, reason: bv16)

  predicate Askable(ask: Ask) {
    ask.messageType == REMOTE_STOP_REQUEST || ask.messageType == CLEAR_REMOTE_STOP
  }

  function Queued(d: Desk, ask: Ask): (r: (Desk, bool)) {
    if d.busy || d.pending.Some? then (d, false)
    else
      var id := NextNonzero(d.nextTransactionId);
      (d.(pending := Some(Request(ask.messageType, id, ask.reason)), busy := true,
          nextTransactionId := id, requests := d.requests + 1), true)
  }

  function PingAsked(d: Desk): (r: (Desk, bool)) {
    if d.ping.Some? then (d, false)
    else
      var id := NextNonzero(d.nextPingId);
      (d.(ping := Some(id), nextPingId := id), true)
  }

  function StartupNotReady(l: Link): Link {
    if l.port.state != READY && l.port.state != CLOSED then
      l.(health := Noted(l.health, H.UNHEALTHY, H.startup_not_ready, l.health.confirmed, false))
    else l
  }

  function HealthAcknowledged(l: Link, revision: nat): Link {
    l.(health := l.health.(record := H.Acknowledged(l.health.record, revision)))
  }

  // ---- opening and losing the port ----

  function FailOutstanding(l: Link): Link {
    if !l.port.reliable.outstanding then l
    else l.(port := l.port.(reliable := IDLE),
            desk := l.desk.(busy := false, failures := l.desk.failures + 1))
  }

  function Reopened(l: Link, c: Config, now: nat): Link {
    SetState(l.(port := l.port.(open := true, tx := None, wait := NO_WINDOW, reliable := IDLE),
                peer := Peer(NO_BASELINE, 0, false),
                timers := l.timers.(nextHello := now, nextHeartbeat := now + c.heartbeatPeriod,
                                    nextControl := now, haveValidRx := false)), NEGOTIATING)
  }

  function OpenFailed(l: Link, c: Config, now: nat): Link {
    l.(health := Noted(l.health, H.UNHEALTHY, H.open_failed, l.health.confirmed, false),
       timers := l.timers.(nextOpen := now + c.openRetry))
  }

  // The head of the loop: the pass's clock reading and the attempt to open.
  function BeginPass(l: Link, c: Config, now: nat, opens: bool): Link {
    var l := l.(timers := l.timers.(clock := now, passNow := now));
    if !l.port.open && now >= l.timers.nextOpen then
      if opens then Reopened(SetState(l, OPENING), c, now) else OpenFailed(SetState(l, OPENING), c, now)
    else l
  }

  function Reconnect(l: Link, c: Config, now: nat): Link {
    var closed := l.(port := l.port.(open := false, tx := None, wait := NO_WINDOW),
                     peer := l.peer.(tracker := NO_BASELINE, bootValid := false),
                     timers := l.timers.(nextOpen := now + c.openRetry, clock := now));
    SetState(FailOutstanding(closed), LINK_LOST)
  }

  // ---- timeouts ----

  function WindowExpired(l: Link, c: Config): Link {
    var now, expired := l.timers.passNow, l.port.wait.kind;
    var l := l.(port := l.port.(wait := NO_WINDOW));
    match expired
    case AwaitHelloAck => SetState(l.(timers := l.timers.(nextHello := now)), NEGOTIATING)
    case AwaitReliable => SetState(l, DEGRADED)
    case _ => SetState(l.(timers := l.timers.(nextHeartbeat := now + c.heartbeatPeriod)), DEGRADED)
  }

  predicate InSession(state: LinkState) {
    state == READY || state == DEGRADED
  }

  // The subtraction is unsigned in HandleTimeouts, and never wraps (see TimersOk).
  predicate Silent(t: Timers, c: Config) {
    t.haveValidRx && t.passNow >= t.lastValidRx && t.passNow - t.lastValidRx >= c.watchdogTimeout
  }

  function WatchdogLoss(l: Link): Link {
    var lost := SetState(l, LINK_LOST);
    var failed := FailOutstanding(lost.(port := lost.port.(tx := None, wait := NO_WINDOW)));
    failed.(peer := l.peer.(tracker := NO_BASELINE, bootValid := false),
            timers := l.timers.(haveValidRx := false, nextHello := l.timers.passNow + 1))
  }

  predicate Expired(l: Link) {
    l.port.wait.kind != AwaitNothing && l.timers.passNow >= l.port.wait.deadline
  }

  function HandleTimeouts(l: Link, c: Config): Link {
    var l := if Expired(l) then WindowExpired(l, c) else l;
    if InSession(l.port.state) && Silent(l.timers, c) then WatchdogLoss(l) else l
  }

  // ---- sending ----

  function StartTx(l: Link, frame: TxFrame): Link {
    l.(port := l.port.(tx := Some(frame)), log := l.log.(started := l.log.started + [frame]))
  }

  function SequenceTaken(l: Link): Link {
    l.(log := l.log.(nextWireSequence := (l.log.nextWireSequence + 1) % MODULUS))
  }

  function SendPlain(l: Link, encoded: seq<byte>, messageType: MessageType, response: ResponseKind,
                     expectedId: uint32): Link {
    StartTx(SequenceTaken(l), TxFrame(encoded, 0, messageType, response, expectedId, false, 0))
  }

  function SendHello(l: Link, c: Config, encoded: seq<byte>): Link {
    var sequence := l.log.nextWireSequence;
    SendPlain(l.(log := l.log.(helloSequence := sequence),
                 timers := l.timers.(nextHello := l.timers.passNow + c.helloPeriod)),
              encoded, HELLO, AwaitHelloAck, sequence)
  }

  function BusyReleased(d: Desk): Desk {
    d.(busy := false)
  }

  function SendReliable(l: Link, c: Config, request: Request, encoded: seq<byte>): Link {
    var sequence := l.log.nextWireSequence;
    var taken := SequenceTaken(l.(desk := l.desk.(pending := None)));
    var (begun, ok) := Begun(l.port.reliable, request.messageType, request.transactionId, sequence,
                             encoded, l.timers.passNow, c.reliableTimeout, c.maxRetries);
    if !ok then taken.(desk := BusyReleased(taken.desk))
    else
      StartTx(taken.(port := taken.port.(reliable := begun, outstandingType := request.messageType),
                     log := taken.log.(begun := taken.log.begun + 1)),
              TxFrame(encoded, 0, request.messageType, AwaitReliable, request.transactionId, false,
                      taken.log.begun + 1))
  }

  // What the scheduler finds: the bytes that encoding the frame it chooses gives,
  // whether the control mailbox holds a value, and a request queued by another
  // thread between the poll of the transaction and the look at the pending one.
  datatype Offer = Offer(encoded: seq<byte>, control: bool, late: Option<Ask>)

  function Retransmit(l: Link, frame: seq<byte>): Link {
    StartTx(l, TxFrame(frame, 0, l.port.outstandingType, AwaitReliable, l.port.reliable.transactionId,
                       true, l.log.begun))
  }

  function ScheduleRest(l: Link, c: Config, offer: Offer): Link {
    var now := l.timers.passNow;
    if !l.port.reliable.outstanding && l.desk.pending.Some? then
      SendReliable(l, c, l.desk.pending.value, offer.encoded)
    else if now >= l.timers.nextHeartbeat then
      SendPlain(l.(timers := l.timers.(nextHeartbeat := now + c.heartbeatPeriod)),
                offer.encoded, HEARTBEAT, AwaitStatus, l.log.nextWireSequence)
    else if l.desk.ping.Some? then
      SendPlain(l.(desk := l.desk.(ping := None)), offer.encoded, PING, AwaitPong, l.desk.ping.value)
    else if now >= l.timers.nextControl && offer.control then
      SendPlain(l.(timers := l.timers.(nextControl := now + c.controlPeriod)),
                offer.encoded, CONTROL_UPDATE, AwaitNothing, 0)
    else l
  }

  function ScheduleSession(l: Link, c: Config, offer: Offer): Link {
    var (polled, result) := Polled(l.port.reliable, l.timers.passNow);
    var next := l.(port := l.port.(reliable := polled));
    match result
    case Retry(frame) => Retransmit(next, frame)
    case Failed => ScheduleRest(Interrupted(GaveUpOn(next), offer.late), c, offer)
    case Nothing => ScheduleRest(Interrupted(next, offer.late), c, offer)
  }

  function GaveUpOn(l: Link): Link {
    l.(desk := l.desk.(busy := false, failures := l.desk.failures + 1))
  }

  function Interrupted(l: Link, late: Option<Ask>): Link {
    if late.Some? then l.(desk := Queued(l.desk, late.value).0) else l
  }

  function Schedule(l: Link, c: Config, offer: Offer): Link {
    if l.port.tx.Some? || l.port.wait.kind != AwaitNothing || !l.port.open then l
    else
      match l.port.state
      case LINK_LOST => if l.timers.passNow >= l.timers.nextHello then SetState(l, NEGOTIATING) else l
      case NEGOTIATING => if l.timers.passNow >= l.timers.nextHello then SendHello(l, c, offer.encoded) else l
      case READY => ScheduleSession(l, c, offer)
      case DEGRADED => ScheduleSession(l, c, offer)
      case CLOSED => l
      case OPENING => l
  }

  // The last byte of the frame has been written.
  function CompleteTransmit(l: Link, c: Config, now: nat): Link
    requires l.port.tx.Some?
  {
    var frame := l.port.tx.value;
    var timeout := if frame.response == AwaitReliable then c.reliableTimeout else c.responseTimeout;
    l.(port := l.port.(tx := None,
                       wait := if frame.response == AwaitNothing then l.port.wait
                               else Window(frame.response, now + timeout, frame.expectedId)),
       timers := l.timers.(clock := now))
  }

  // ---- receiving ----

  datatype Body =
    | HelloAckBody(helloSequence: uint32, accepted: byte, version: byte, role: byte, maxPayload: nat)
    | StatusBody
    | PongBody(pingId: uint32)
    | AnswerBody(acknowledged: bool, ackedType: byte, transactionId: uint32, result: bv16, detail: bv16)
    | RequestBody

  // A frame whose message decodes; the others only count an error.
  datatype Received = Received(bootId: uint32, sequence: uint32, body: Body)

  predicate AcceptableAck(l: Link, c: Config, ack: Body)
    requires ack.HelloAckBody?
  {
    && l.port.wait.kind == AwaitHelloAck && ack.helloSequence == l.port.wait.expectedId
    && ack.accepted != 0 && ack.version == PROTOCOL_VERSION && ack.role == c.expectedRole
    && ack.maxPayload >= MAX_PAYLOAD_SIZE
  }

  function ClearWait(l: Link): Link {
    l.(port := l.port.(wait := NO_WINDOW))
  }

  function HandleHelloAck(l: Link, c: Config, ack: Body): Link
    requires ack.HelloAckBody?
  {
    if AcceptableAck(l, c, ack) then
      var cleared := ClearWait(l);
      SetState(cleared.(health := ConfirmedBoot(cleared.health, cleared.peer)), READY)
    else if l.port.wait.kind == AwaitHelloAck && ack.helloSequence == l.port.wait.expectedId
            && ack.accepted == 0 then
      l.(health := Noted(l.health, H.UNHEALTHY, H.hello_rejected, l.health.confirmed, false))
    else l
  }

  function HandleAnswer(l: Link, answer: Body): Link
    requires answer.AnswerBody?
  {
    if l.port.wait.kind != AwaitReliable then l
    else
      var known := TypeOfCode(answer.ackedType);
      if known.None? then l
      else
        var (after, response) := Responded(l.port.reliable, known.value, answer.transactionId,
                                           answer.acknowledged, answer.result, answer.detail);
        if response.Unmatched? then l
        else
          var cleared := ClearWait(l.(port := l.port.(reliable := after)));
          SetState(cleared.(desk := Settled(l.desk, answer.acknowledged)), READY)
  }

  function Settled(d: Desk, acknowledged: bool): Desk {
    d.(busy := false, acks := d.acks + (if acknowledged then 1 else 0),
       nacks := d.nacks + (if acknowledged then 0 else 1))
  }

  function HandleBody(l: Link, c: Config, body: Body): Link {
    match body
    case HelloAckBody(_, _, _, _, _) => HandleHelloAck(l, c, body)
    case StatusBody => if l.port.wait.kind != AwaitStatus then l else SetState(ClearWait(l), READY)
    case PongBody(id) =>
      if l.port.wait.kind != AwaitPong || id != l.port.wait.expectedId then l
      else SetState(ClearWait(l), READY)
    case AnswerBody(_, _, _, _, _) => HandleAnswer(l, body)
    case RequestBody => l
  }

  function PeerRebooted(l: Link): Link {
    var noted := l.(health := PeerRenegotiation(l.health), port := l.port.(wait := NO_WINDOW, tx := None));
    SetState(FailOutstanding(noted), NEGOTIATING)
  }

  function HandleFrame(l: Link, c: Config, m: Received, now: nat): Link {
    var bootChanged := l.peer.tracker.hasBaseline && l.peer.tracker.bootId != m.bootId;
    var (tracker, relation) := Observed(l.peer.tracker, m.bootId, m.sequence);
    var observed := l.(peer := Peer(tracker, m.bootId, true), timers := l.timers.(clock := now));
    var known := if bootChanged then PeerRebooted(observed) else observed;
    if relation.DUPLICATE? || relation.OLDER? then known
    else HandleBody(known.(timers := known.timers.(lastValidRx := now, haveValidRx := true)), c, m.body)
  }

  // ---- one step of any thread ----

  datatype LinkEvent =
    | QueueRequest(ask: Ask) | QueuePing | AckHealth(revision: nat) | NoteNotReady
    | Start(now: nat, opens: bool)
    | Timeouts
    | Choose(offer: Offer)
    | PollNothing | PollHangup(now: nat) | PollReadable | PollWritable
    | Receive(message: Received, now: nat) | ReceiveDone(writable: bool) | ReceiveFailed(now: nat)
    | WritePart(bytes: nat) | WriteAll(now: nat) | WriteFailed(now: nat)

  // Which events the environment may offer in which phase.
  predicate Possible(l: Link, event: LinkEvent) {
    match event
    case QueueRequest(ask) => Askable(ask)
    case QueuePing => true
    case AckHealth(_) => true
    case NoteNotReady => true
    case Start(now, _) => l.phase == Head && l.timers.clock <= now
    case Timeouts => l.phase == Timing
    case Choose(offer) =>
      l.phase == Scheduling && offer.encoded != [] && (offer.late.Some? ==> Askable(offer.late.value))
    case PollNothing => l.phase == Polling
    case PollHangup(now) => l.phase == Polling && l.port.open && l.timers.clock <= now
    case PollReadable => l.phase == Polling && l.port.open
    case PollWritable => l.phase == Polling && l.port.open && l.port.tx.Some?
    case Receive(_, now) => l.phase == Reading && l.timers.clock <= now
    case ReceiveDone(writable) => l.phase == Reading && (writable ==> l.port.tx.Some?)
    case ReceiveFailed(now) => l.phase == Reading && l.timers.clock <= now
    case WritePart(n) =>
      l.phase == Writing && l.port.tx.Some? && l.port.tx.value.offset + n < |l.port.tx.value.bytes|
    case WriteAll(now) => l.phase == Writing && l.port.tx.Some? && l.timers.clock <= now
    case WriteFailed(now) => l.phase == Writing && l.timers.clock <= now
  }

  function Enter(l: Link, phase: Phase): Link {
    l.(phase := phase)
  }

  function Next(l: Link, c: Config, event: LinkEvent): Link
    requires Possible(l, event)
  {
    match event
    case QueueRequest(ask) => l.(desk := Queued(l.desk, ask).0)
    case QueuePing => l.(desk := PingAsked(l.desk).0)
    case AckHealth(revision) => HealthAcknowledged(l, revision)
    case NoteNotReady => StartupNotReady(l)
    case Start(now, opens) => Enter(BeginPass(l, c, now, opens), Timing)
    case Timeouts => Enter(if l.port.open then HandleTimeouts(l, c) else l, Scheduling)
    case Choose(offer) => Enter(Schedule(l, c, offer), Polling)
    case PollNothing => Enter(l, Head)
    case PollHangup(now) => Enter(Reconnect(l, c, now), Head)
    case PollReadable => Enter(l, Reading)
    case PollWritable => Enter(l, Writing)
    case Receive(message, now) => HandleFrame(l, c, message, now)
    case ReceiveDone(writable) => Enter(l, if writable then Writing else Head)
    case ReceiveFailed(now) => Enter(Reconnect(l, c, now), Head)
    case WritePart(n) =>
      var frame := l.port.tx.value;
      Enter(l.(port := l.port.(tx := Some(frame.(offset := frame.offset + n)))), Head)
    case WriteAll(now) => Enter(CompleteTransmit(l, c, now), Head)
    case WriteFailed(now) => Enter(Reconnect(l, c, now), Head)
  }

  function Initial(now: nat): Link {
    Link(Port(false, CLOSED, None, NO_WINDOW, IDLE, REMOTE_STOP_REQUEST),
         Desk(None, false, 0, None, 0, 0, 0, 0, 0),
         Peer(NO_BASELINE, 0, false),
         Health(H.INITIAL, None, false),
         Timers(now, now, now, now, false, 0, now, now),
         Outbox(0, [], 0, 0), Head)
  }
}
