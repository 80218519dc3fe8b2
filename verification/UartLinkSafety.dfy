/** What every step of the link keeps, and what follows for whole runs. */
module UartLinkSafety {
  import opened Arithmetic
  import opened Wrappers
  import opened Octets
  import opened UartFrames
  import opened UartSequences
  import opened UartReliable
  import opened UartLinks

  // ---- identifiers ----

  function Ids(value: UartSequences.uint32, n: nat): UartSequences.uint32 {
    if n == 0 then value else NextNonzero(Ids(value, n - 1))
  }

  // The identifiers handed out after `value` are never zero, and the same one comes
  // back only after all the others: they count around the nonzero numbers.
  lemma {:induction false} IdsGoAround(value: UartSequences.uint32, n: nat)
    requires value != 0
    ensures Ids(value, n) == (value - 1 + n) % (UartSequences.MODULUS - 1) + 1
    decreases n
  {
    if n == 0 {
      ModSmall(value - 1, UartSequences.MODULUS - 1);
    } else {
      IdsGoAround(value, n - 1);
      ModNext(value - 2 + n, UartSequences.MODULUS - 1);
    }
  }

  // ---- the modes of the port ----

  predicate Awaits(p: Port, kind: ResponseKind) {
    p.wait.kind == kind || (p.tx.Some? && p.tx.value.response == kind)
  }

  // A closed port has nothing in flight; an open one is in one of four modes; a
  // frame and an open window never coexist; only a HELLO is in flight or awaited
  // while negotiating, and none is in a session.
  predicate ModeOk(p: Port) {
    && (!p.open ==> !InSession(p.state) && p.state != NEGOTIATING)
    && (p.open ==> p.state != CLOSED && p.state != OPENING)
    && (p.state == LINK_LOST || !p.open ==> p.tx.None? && p.wait.kind == AwaitNothing)
    && (p.tx.Some? ==> p.wait.kind == AwaitNothing && p.tx.value.offset < |p.tx.value.bytes|)
    && (p.tx.Some? ==> (p.tx.value.messageType == HELLO <==> p.tx.value.response == AwaitHelloAck))
    && (p.tx.Some? && p.state == NEGOTIATING ==> p.tx.value.messageType == HELLO)
    && (p.tx.Some? && InSession(p.state) ==> p.tx.value.messageType != HELLO)
    && (p.state == NEGOTIATING ==> p.wait.kind == AwaitNothing || p.wait.kind == AwaitHelloAck)
    && (InSession(p.state) ==> p.wait.kind != AwaitHelloAck)
  }

  predicate HelloOk(p: Port, log: Outbox) {
    && (p.wait.kind == AwaitHelloAck ==> p.wait.expectedId == log.helloSequence)
    && (p.tx.Some? && p.tx.value.messageType == HELLO ==> p.tx.value.expectedId == log.helloSequence)
  }

  // ---- the reliable transaction ----

  // Between the timeouts and the schedule of one pass an outstanding transaction
  // may be neither in flight nor awaited; then its own deadline has passed too.
  predicate Bare(l: Link) {
    && l.phase == Scheduling && InSession(l.port.state)
    && l.port.tx.None? && l.port.wait.kind == AwaitNothing
    && l.port.reliable.outstanding && l.port.reliable.deadline <= l.timers.passNow
  }

  predicate CarriesReliable(p: Port, begun: nat) {
    p.tx.Some? && p.tx.value.response == AwaitReliable ==>
      && p.tx.value.bytes == p.reliable.frame && p.tx.value.serial == begun
      && p.tx.value.messageType == p.reliable.messageType
      && p.tx.value.expectedId == p.reliable.transactionId
  }

  predicate ReliableOk(l: Link, c: Config) {
    var p := l.port;
    && (Awaits(p, AwaitReliable) ==> p.reliable.outstanding && InSession(p.state))
    && (p.reliable.outstanding ==> Awaits(p, AwaitReliable) || Bare(l))
    && (p.reliable.outstanding ==>
          && p.reliable.frame != [] && p.reliable.timeout == c.reliableTimeout
          && p.reliable.maxRetries == c.maxRetries && p.reliable.retries <= c.maxRetries
          && p.reliable.messageType == p.outstandingType && p.reliable.messageType != HELLO)
    && CarriesReliable(p, l.log.begun)
    && (p.wait.kind == AwaitReliable ==>
          p.reliable.deadline <= p.wait.deadline && p.wait.expectedId == p.reliable.transactionId)
    && (p.tx.Some? && p.tx.value.response == AwaitReliable ==>
          p.reliable.deadline <= l.timers.clock + c.reliableTimeout)
  }

  // Busy means pending or outstanding, never both, and every request is accounted for.
  predicate DeskOk(d: Desk, outstanding: bool) {
    && (d.busy <==> d.pending.Some? || outstanding)
    && !(d.pending.Some? && outstanding)
    && d.requests == d.acks + d.nacks + d.failures + (if d.busy then 1 else 0)
    && (d.pending.Some? ==> Askable(Ask(d.pending.value.messageType, d.pending.value.reason)))
  }

  predicate PeerOk(l: Link) {
    InSession(l.port.state) ==> l.peer.bootValid
  }

  predicate TimersOk(t: Timers, phase: Phase) {
    && t.passNow <= t.clock
    && (t.haveValidRx ==> t.lastValidRx <= t.clock)
    && ((phase == Timing || phase == Scheduling) && t.haveValidRx ==> t.lastValidRx <= t.passNow)
  }

  // Only an open port is read or written.
  predicate PhaseOk(l: Link) {
    l.phase == Reading || l.phase == Writing ==> l.port.open
  }

  // ---- the frames of one transaction ----

  // All frames of a transaction are the same, stand together, and are at most
  // one more than the retries.
  ghost predicate OneBlock(started: seq<TxFrame>, maxRetries: nat) {
    forall i, k :: 0 <= i <= k < |started| && started[i].serial != 0 && started[i].serial == started[k].serial ==>
      && k - i <= maxRetries
      && forall j :: i <= j <= k ==>
           started[j].bytes == started[i].bytes && started[j].serial == started[i].serial
  }

  // The current transaction has the last serial; its frames are the last ones.
  ghost predicate LastBlock(l: Link) {
    var n, s := |l.log.started|, l.log.started;
    && (forall i :: 0 <= i < n ==> s[i].serial <= l.log.begun)
    && (l.port.reliable.outstanding ==>
          && l.log.begun > 0 && l.port.reliable.retries < n
          && (forall i :: n - 1 - l.port.reliable.retries <= i < n ==>
                s[i].serial == l.log.begun && s[i].bytes == l.port.reliable.frame)
          && (forall i :: 0 <= i < n - 1 - l.port.reliable.retries ==> s[i].serial < l.log.begun))
  }

  // The frame in transmission is the last one logged.
  ghost predicate TxLogged(l: Link) {
    l.port.tx.Some? ==>
      && l.log.started != []
      && l.log.started[|l.log.started| - 1] == l.port.tx.value.(offset := 0)
  }

  ghost predicate LogOk(l: Link, c: Config) {
    OneBlock(l.log.started, c.maxRetries) && LastBlock(l) && TxLogged(l)
  }

  ghost predicate Inv(l: Link, c: Config) {
    && ModeOk(l.port) && HelloOk(l.port, l.log) && ReliableOk(l, c)
    && DeskOk(l.desk, l.port.reliable.outstanding) && PeerOk(l) && TimersOk(l.timers, l.phase)
    && PhaseOk(l) && LogOk(l, c)
  }

  lemma InitialInv(c: Config, now: nat)
    ensures Inv(Initial(now), c)
  {
  }

  lemma CallsKeep(l: Link, c: Config, event: LinkEvent)
    requires Inv(l, c) && Possible(l, event)
    requires event.QueueRequest? || event.QueuePing? || event.AckHealth? || event.NoteNotReady?
    ensures Inv(Next(l, c, event), c)
  {
  }

  lemma StartKeeps(l: Link, c: Config, now: nat, opens: bool)
    requires Inv(l, c) && Possible(l, Start(now, opens))
    ensures Inv(Next(l, c, Start(now, opens)), c)
  {
  }

  lemma ExpiredKeeps(l: Link, c: Config)
    requires Inv(l, c) && l.phase == Timing && l.port.open && Expired(l)
    ensures Inv(Enter(WindowExpired(l, c), Scheduling), c)
  {
    match l.port.wait.kind {
      case AwaitNothing =>
      case AwaitHelloAck =>
      case AwaitStatus =>
      case AwaitPong =>
      case AwaitReliable =>
    }
  }

  lemma WatchdogKeeps(l: Link, c: Config)
    requires Inv(l, c) && l.phase == Scheduling && l.port.open && InSession(l.port.state)
    ensures Inv(WatchdogLoss(l), c)
  {
  }

  lemma EnterKeeps(l: Link, c: Config)
    requires Inv(l, c) && l.phase == Timing
    ensures Inv(Enter(l, Scheduling), c)
  {
  }

  // The watchdog, and on to the scheduler.
  lemma WatchdogEnters(timed: Link, c: Config)
    requires Inv(Enter(timed, Scheduling), c) && timed.port.open
    ensures Inv(Enter(if InSession(timed.port.state) && Silent(timed.timers, c) then WatchdogLoss(timed) else timed,
                      Scheduling), c)
  {
    if InSession(timed.port.state) && Silent(timed.timers, c) {
      WatchdogKeeps(Enter(timed, Scheduling), c);
      assert WatchdogLoss(Enter(timed, Scheduling)) == Enter(WatchdogLoss(timed), Scheduling);
    }
  }

  lemma TimeoutsKeep(l: Link, c: Config)
    requires Inv(l, c) && l.phase == Timing
    ensures Inv(Next(l, c, Timeouts), c)
  {
    EnterKeeps(l, c);
    if l.port.open {
      if Expired(l) {
        ExpiredKeeps(l, c);
      }
      WatchdogEnters(if Expired(l) then WindowExpired(l, c) else l, c);
    }
  }

  lemma ReconnectKeeps(l: Link, c: Config, now: nat)
    requires Inv(l, c) && l.timers.clock <= now && (l.phase == Polling || l.phase == Reading || l.phase == Writing)
    ensures Inv(Enter(Reconnect(l, c, now), Head), c)
  {
  }

  lemma RebootKeeps(l: Link, c: Config)
    requires Inv(l, c) && l.phase == Reading && l.port.open
    ensures Inv(PeerRebooted(l), c)
  {
  }

  lemma BodyKeeps(l: Link, c: Config, body: Body)
    requires Inv(l, c) && l.phase == Reading && l.port.open && l.peer.bootValid
    ensures Inv(HandleBody(l, c, body), c)
  {
    match body {
      case HelloAckBody(_, _, _, _, _) =>
      case StatusBody =>
      case PongBody(id) =>
      case AnswerBody(_, _, _, _, _) =>
      case RequestBody =>
    }
  }

  lemma ObservedKeeps(l: Link, c: Config, tracker: UartSequences.Tracker, bootId: UartSequences.uint32, now: nat)
    requires Inv(l, c) && l.phase == Reading && l.port.open && l.timers.clock <= now
    requires tracker.hasBaseline
    ensures var observed := l.(peer := UartLinks.Peer(tracker, bootId, true), timers := l.timers.(clock := now));
            Inv(observed, c)
  {
  }

  // The frame counts as received at the time now.
  lemma HeardKeeps(l: Link, c: Config, body: Body)
    requires Inv(l, c) && l.phase == Reading && l.port.open && l.peer.bootValid
    ensures var heard := l.(timers := l.timers.(lastValidRx := l.timers.clock, haveValidRx := true));
            Inv(HandleBody(heard, c, body), c)
  {
    BodyKeeps(l.(timers := l.timers.(lastValidRx := l.timers.clock, haveValidRx := true)), c, body);
  }

  lemma ReceiveKeeps(l: Link, c: Config, m: Received, now: nat)
    requires Inv(l, c) && Possible(l, Receive(m, now)) && l.port.open
    ensures Inv(HandleFrame(l, c, m, now), c)
  {
    var (tracker, relation) := Observed(l.peer.tracker, m.bootId, m.sequence);
    var observed := l.(peer := UartLinks.Peer(tracker, m.bootId, true), timers := l.timers.(clock := now));
    ObservedKeeps(l, c, tracker, m.bootId, now);
    RebootKeeps(observed, c);
    var bootChanged := l.peer.tracker.hasBaseline && l.peer.tracker.bootId != m.bootId;
    HeardKeeps(if bootChanged then PeerRebooted(observed) else observed, c, m.body);
  }

  lemma WritesKeep(l: Link, c: Config, event: LinkEvent)
    requires Inv(l, c) && Possible(l, event) && (event.WritePart? || event.WriteAll?)
    ensures Inv(Next(l, c, event), c)
  {
  }

  // ---- scheduling ----

  ghost predicate Choosing(l: Link, c: Config) {
    && Inv(l, c) && l.phase == Scheduling && l.port.open
    && l.port.tx.None? && l.port.wait.kind == AwaitNothing
  }

  lemma HelloKeeps(l: Link, c: Config, encoded: seq<byte>)
    requires Choosing(l, c) && l.port.state == NEGOTIATING && encoded != []
    ensures Inv(Enter(SendHello(l, c, encoded), Polling), c)
  {
  }

  lemma PlainKeeps(l: Link, c: Config, encoded: seq<byte>, messageType: MessageType,
                   response: ResponseKind, expectedId: uint32)
    requires Choosing(l, c) && InSession(l.port.state) && encoded != [] && !l.port.reliable.outstanding
    requires messageType != HELLO && response != AwaitHelloAck && response != AwaitReliable
    ensures Inv(Enter(SendPlain(l, encoded, messageType, response, expectedId), Polling), c)
  {
  }

  lemma ReliableKeeps(l: Link, c: Config, encoded: seq<byte>)
    requires Usable(c) && Choosing(l, c) && InSession(l.port.state) && encoded != []
    requires !l.port.reliable.outstanding && l.desk.pending.Some?
    ensures Inv(Enter(SendReliable(l, c, l.desk.pending.value, encoded), Polling), c)
  {
  }

  lemma RetryLog(l: Link, c: Config, frame: TxFrame)
    requires LogOk(l, c) && l.port.reliable.outstanding && l.port.reliable.retries < c.maxRetries
    requires frame.serial == l.log.begun && frame.bytes == l.port.reliable.frame
    ensures var started := l.log.started + [frame];
      && OneBlock(started, c.maxRetries)
      && (forall i :: 0 <= i < |started| ==> started[i].serial <= l.log.begun)
      && (forall i :: |started| - 2 - l.port.reliable.retries <= i < |started| ==>
            started[i].serial == l.log.begun && started[i].bytes == l.port.reliable.frame)
      && (forall i :: 0 <= i < |started| - 2 - l.port.reliable.retries ==> started[i].serial < l.log.begun)
  {
  }

  lemma RetryKeeps(l: Link, c: Config, frame: seq<byte>)
    requires Choosing(l, c) && l.port.reliable.outstanding
    requires Polled(l.port.reliable, l.timers.passNow).1 == Retry(frame)
    ensures var next := l.(port := l.port.(reliable := Polled(l.port.reliable, l.timers.passNow).0));
            Inv(Enter(Retransmit(next, frame), Polling), c)
  {
    RetryLog(l, c, TxFrame(frame, 0, l.port.outstandingType, AwaitReliable, l.port.reliable.transactionId,
                           true, l.log.begun));
  }

  lemma GiveUpKeeps(l: Link, c: Config)
    requires Choosing(l, c) && Polled(l.port.reliable, l.timers.passNow).1.Failed?
    ensures var next := l.(port := l.port.(reliable := IDLE));
            Choosing(GaveUpOn(next), c) && !next.port.reliable.outstanding
  {
  }

  lemma RestKeeps(l: Link, c: Config, offer: Offer)
    requires Usable(c) && Choosing(l, c) && InSession(l.port.state) && offer.encoded != []
    requires !l.port.reliable.outstanding
    ensures Inv(Enter(ScheduleRest(l, c, offer), Polling), c)
  {
    var now := l.timers.passNow;
    if l.desk.pending.Some? {
      ReliableKeeps(l, c, offer.encoded);
    } else if now >= l.timers.nextHeartbeat {
      PlainKeeps(l.(timers := l.timers.(nextHeartbeat := now + c.heartbeatPeriod)), c,
                 offer.encoded, HEARTBEAT, AwaitStatus, l.log.nextWireSequence);
    } else if l.desk.ping.Some? {
      PlainKeeps(l.(desk := l.desk.(ping := None)), c, offer.encoded, PING, AwaitPong, l.desk.ping.value);
    } else if now >= l.timers.nextControl && offer.control {
      PlainKeeps(l.(timers := l.timers.(nextControl := now + c.controlPeriod)), c,
                 offer.encoded, CONTROL_UPDATE, AwaitNothing, 0);
    }
  }

  lemma LateKeeps(l: Link, c: Config, late: Option<Ask>)
    requires Choosing(l, c) && (late.Some? ==> Askable(late.value))
    ensures Choosing(Interrupted(l, late), c)
    ensures Interrupted(l, late) == l.(desk := Interrupted(l, late).desk)
  {
  }

  lemma SessionKeeps(l: Link, c: Config, offer: Offer)
    requires Usable(c) && Choosing(l, c) && InSession(l.port.state) && Possible(l, Choose(offer))
    ensures Inv(Enter(ScheduleSession(l, c, offer), Polling), c)
  {
    var (polled, result) := Polled(l.port.reliable, l.timers.passNow);
    var next := l.(port := l.port.(reliable := polled));
    match result {
      case Retry(frame) =>
        RetryKeeps(l, c, frame);
      case Failed =>
        GiveUpKeeps(l, c);
        LateKeeps(GaveUpOn(next), c, offer.late);
        RestKeeps(Interrupted(GaveUpOn(next), offer.late), c, offer);
      case Nothing =>
        LateKeeps(next, c, offer.late);
        RestKeeps(Interrupted(next, offer.late), c, offer);
    }
  }

  lemma ScheduleKeeps(l: Link, c: Config, offer: Offer)
    requires Usable(c) && Inv(l, c) && Possible(l, Choose(offer))
    ensures Inv(Enter(Schedule(l, c, offer), Polling), c)
  {
    if l.port.open && l.port.tx.None? && l.port.wait.kind == AwaitNothing {
      match l.port.state {
        case LINK_LOST =>
        case NEGOTIATING =>
          if l.timers.passNow >= l.timers.nextHello {
            HelloKeeps(l, c, offer.encoded);
          }
        case READY => SessionKeeps(l, c, offer);
        case DEGRADED => SessionKeeps(l, c, offer);
        case CLOSED =>
        case OPENING =>
      }
    }
  }

  lemma NextInv(l: Link, c: Config, event: LinkEvent)
    requires Usable(c) && Inv(l, c) && Possible(l, event)
    ensures Inv(Next(l, c, event), c)
  {
    match event {
      case QueueRequest(_) => CallsKeep(l, c, event);
      case QueuePing => CallsKeep(l, c, event);
      case AckHealth(_) => CallsKeep(l, c, event);
      case NoteNotReady => CallsKeep(l, c, event);
      case Start(now, opens) => StartKeeps(l, c, now, opens);
      case Timeouts => TimeoutsKeep(l, c);
      case Choose(offer) => ScheduleKeeps(l, c, offer);
      case PollNothing =>
      case PollHangup(now) => ReconnectKeeps(l, c, now);
      case PollReadable =>
      case PollWritable =>
      case Receive(message, now) => ReceiveKeeps(l, c, message, now);
      case ReceiveDone(writable) =>
      case ReceiveFailed(now) => ReconnectKeeps(l, c, now);
      case WritePart(n) => WritesKeep(l, c, event);
      case WriteAll(now) => WritesKeep(l, c, event);
      case WriteFailed(now) => ReconnectKeeps(l, c, now);
    }
  }

  // ---- whole runs ----

  // The states and events of one run of the link, from its construction.
  ghost predicate Trace(c: Config, states: seq<Link>, events: seq<LinkEvent>, now: nat) {
    && |states| == |events| + 1 && states[0] == Initial(now)
    && forall i :: 0 <= i < |events| ==>
         Possible(states[i], events[i]) && states[i + 1] == Next(states[i], c, events[i])
  }

  lemma {:induction false} TraceInv(c: Config, states: seq<Link>, events: seq<LinkEvent>, now: nat, i: nat)
    requires Usable(c) && Trace(c, states, events, now) && i < |states|
    ensures Inv(states[i], c)
    decreases i
  {
    if i == 0 {
      InitialInv(c, now);
    } else {
      TraceInv(c, states, events, now, i - 1);
      NextInv(states[i - 1], c, events[i - 1]);
    }
  }

  // At every loop head: busy means pending or outstanding, outstanding means that the
  // frame is in transmission or its answer awaited, and all requests are accounted for.
  lemma LoopHeadAccounts(c: Config, states: seq<Link>, events: seq<LinkEvent>, now: nat, i: nat)
    requires Usable(c) && Trace(c, states, events, now) && i < |states| && states[i].phase == Head
    ensures var l := states[i];
      && (l.desk.busy <==> l.desk.pending.Some? || l.port.reliable.outstanding)
      && !(l.desk.pending.Some? && l.port.reliable.outstanding)
      && (l.port.reliable.outstanding <==>
            || (l.port.tx.Some? && l.port.tx.value.response == AwaitReliable
                && l.port.tx.value.bytes == l.port.reliable.frame)
            || l.port.wait.kind == AwaitReliable)
      && l.desk.requests == l.desk.acks + l.desk.nacks + l.desk.failures + (if l.desk.busy then 1 else 0)
  {
    TraceInv(c, states, events, now, i);
  }

  // In every state: a frame and an open window never coexist, only a HELLO is in
  // flight or awaited while negotiating, a session has a valid peer boot id, and a
  // closed port has nothing outstanding.
  lemma ModesAreSafe(c: Config, states: seq<Link>, events: seq<LinkEvent>, now: nat, i: nat)
    requires Usable(c) && Trace(c, states, events, now) && i < |states|
    ensures var l := states[i];
      && !(l.port.tx.Some? && l.port.wait.kind != AwaitNothing)
      && (l.port.state == NEGOTIATING ==>
            && (l.port.tx.Some? ==> l.port.tx.value.messageType == HELLO)
            && (l.port.wait.kind == AwaitNothing || l.port.wait.kind == AwaitHelloAck))
      && (InSession(l.port.state) ==> l.port.open && l.peer.bootValid)
      && (!l.port.open ==> l.port.tx.None? && l.port.wait.kind == AwaitNothing && !l.port.reliable.outstanding)
  {
    TraceInv(c, states, events, now, i);
  }

  // Cancelling the transaction while opening therefore cancels nothing and leaves
  // no request busy for ever.
  lemma ReopenCancelsNothing(c: Config, states: seq<Link>, events: seq<LinkEvent>, now: nat, i: nat)
    requires Usable(c) && Trace(c, states, events, now) && i < |events|
    requires events[i].Start? && !states[i].port.open && states[i + 1].port.open
    ensures !states[i].port.reliable.outstanding
    ensures states[i + 1].desk == states[i].desk
    ensures states[i + 1].desk.busy <==> states[i + 1].desk.pending.Some?
  {
    TraceInv(c, states, events, now, i);
    TraceInv(c, states, events, now, i + 1);
  }

  // The subtraction in the watchdog test never wraps.
  lemma WatchdogNeverWraps(c: Config, states: seq<Link>, events: seq<LinkEvent>, now: nat, i: nat)
    requires Usable(c) && Trace(c, states, events, now) && i < |states|
    requires states[i].phase == Timing && states[i].timers.haveValidRx
    ensures states[i].timers.lastValidRx <= states[i].timers.passNow
  {
    TraceInv(c, states, events, now, i);
  }

  // ---- transmissions of one transaction ----

  // The frame in transmission is the last one in the log of started frames.
  lemma FrameInFlightIsLogged(c: Config, states: seq<Link>, events: seq<LinkEvent>, now: nat, i: nat)
    requires Usable(c) && Trace(c, states, events, now) && i < |states| && states[i].port.tx.Some?
    ensures var started := states[i].log.started;
            started != [] && started[|started| - 1] == states[i].port.tx.value.(offset := 0)
  {
    TraceInv(c, states, events, now, i);
  }

  // The frames of one transaction are byte-identical, at most one more than the
  // allowed retries, and no other frame is started between them.
  lemma TransmissionsAreBounded(c: Config, states: seq<Link>, events: seq<LinkEvent>, now: nat,
                                n: nat, i: nat, k: nat)
    requires Usable(c) && Trace(c, states, events, now) && n < |states|
    requires var started := states[n].log.started;
             i <= k < |started| && started[i].serial != 0 && started[i].serial == started[k].serial
    ensures var started := states[n].log.started;
      && k - i <= c.maxRetries
      && forall j :: i <= j <= k ==>
           started[j].bytes == started[i].bytes && started[j].serial == started[i].serial
  {
    TraceInv(c, states, events, now, n);
  }

  // ---- an expired reliable window ----

  predicate IsCall(event: LinkEvent) {
    event.QueueRequest? || event.QueuePing? || event.AckHealth? || event.NoteNotReady?
  }

  lemma CallChanges(l: Link, c: Config, event: LinkEvent)
    requires Possible(l, event) && IsCall(event)
    ensures var next := Next(l, c, event);
      next.port == l.port && next.timers == l.timers && next.phase == l.phase
      && next.desk.failures == l.desk.failures
  {
  }

  lemma ExpiryBares(l: Link, c: Config)
    requires Inv(l, c) && l.phase == Timing && l.port.wait.kind == AwaitReliable && Expired(l)
    ensures var next := Next(l, c, Timeouts);
      || (next.port.state == LINK_LOST && next.desk.failures == l.desk.failures + 1)
      || (Bare(next) && next.port.open && next.port.reliable == l.port.reliable
          && next.desk.failures == l.desk.failures)
  {
  }

  predicate Retried(l: Link, frame: seq<byte>, retries: nat) {
    && l.port.tx.Some? && l.port.tx.value.retry && l.port.tx.value.bytes == frame
    && l.port.tx.value.response == AwaitReliable && l.port.reliable.retries == retries
  }

  lemma BareIsScheduled(l: Link, c: Config, offer: Offer)
    requires Inv(l, c) && Bare(l) && l.port.open && Possible(l, Choose(offer))
    ensures var next := Next(l, c, Choose(offer));
      || Retried(next, l.port.reliable.frame, l.port.reliable.retries + 1)
      || next.desk.failures == l.desk.failures + 1
  {
  }

  lemma {:induction false} BareWaits(c: Config, states: seq<Link>, events: seq<LinkEvent>, now: nat, i: nat, j: nat)
    requires Usable(c) && Trace(c, states, events, now) && i <= j < |events|
    requires forall k :: i <= k < j ==> IsCall(events[k])
    requires Bare(states[i]) && states[i].port.open
    ensures Bare(states[j]) && states[j].port == states[i].port
    ensures states[j].desk.failures == states[i].desk.failures
    decreases j - i
  {
    if i < j {
      CallChanges(states[i], c, events[i]);
      BareWaits(c, states, events, now, i + 1, j);
    }
  }

  // In the pass that finds it expired, a reliable window leads to a retry of the same
  // bytes, to a counted failure, or to the loss of the link; whatever other threads do
  // between the two regions of that pass.
  lemma ExpiredReliableIsHandled(c: Config, states: seq<Link>, events: seq<LinkEvent>, now: nat, i: nat, j: nat)
    requires Usable(c) && Trace(c, states, events, now) && i < j < |events|
    requires events[i].Timeouts? && states[i].port.wait.kind == AwaitReliable && Expired(states[i])
    requires forall k :: i < k < j ==> IsCall(events[k])
    requires events[j].Choose?
    ensures
      || (states[i + 1].port.state == LINK_LOST && states[i + 1].desk.failures == states[i].desk.failures + 1)
      || states[j + 1].desk.failures == states[i].desk.failures + 1
      || Retried(states[j + 1], states[i].port.reliable.frame, states[i].port.reliable.retries + 1)
  {
    TraceInv(c, states, events, now, i);
    ExpiryBares(states[i], c);
    if states[i + 1].port.state != LINK_LOST {
      BareWaits(c, states, events, now, i + 1, j);
      TraceInv(c, states, events, now, j);
      BareIsScheduled(states[j], c, events[j].offer);
    }
  }

  // ---- entering a session ----

  // The event is the acceptance of the awaited HELLO.
  ghost predicate Accepts(l: Link, c: Config, event: LinkEvent) {
    && event.Receive? && event.message.body.HelloAckBody?
    && AcceptableAck(l, c, event.message.body)
    && event.message.body.helloSequence == l.log.helloSequence
  }

  lemma SessionEntry(l: Link, c: Config, event: LinkEvent)
    requires Usable(c) && Inv(l, c) && Possible(l, event)
    requires !InSession(l.port.state) && InSession(Next(l, c, event).port.state)
    ensures Accepts(l, c, event)
  {
    match event {
      case QueueRequest(_) =>
      case QueuePing =>
      case AckHealth(_) =>
      case NoteNotReady =>
      case Start(_, _) =>
      case Timeouts =>
      case Choose(_) =>
      case PollNothing =>
      case PollHangup(_) =>
      case PollReadable =>
      case PollWritable =>
      case Receive(message, _) =>
        match message.body {
          case HelloAckBody(_, _, _, _, _) =>
          case StatusBody =>
          case PongBody(_) =>
          case AnswerBody(_, _, _, _, _) =>
          case RequestBody =>
        }
      case ReceiveDone(_) =>
      case ReceiveFailed(_) =>
      case WritePart(_) =>
      case WriteAll(_) =>
      case WriteFailed(_) =>
    }
  }

  // A frame neither closes the port nor loses the link, and ends the session when it
  // shows a reboot.
  lemma ReceiveEnds(l: Link, c: Config, m: Received, now: nat)
    requires Inv(l, c) && Possible(l, Receive(m, now))
    ensures var next := HandleFrame(l, c, m, now);
      && next.port.open == l.port.open && (next.port.state == LINK_LOST ==> l.port.state == LINK_LOST)
      && (l.peer.tracker.hasBaseline && l.peer.tracker.bootId != m.bootId ==> !InSession(next.port.state))
  {
  }

  // Opening the port, losing the link and a reboot of the peer all end the session.
  lemma SessionEnds(l: Link, c: Config, event: LinkEvent)
    requires Usable(c) && Inv(l, c) && Possible(l, event)
    requires var next := Next(l, c, event);
      || l.port.open != next.port.open
      || (next.port.state == LINK_LOST && l.port.state != LINK_LOST)
      || (event.Receive? && l.peer.tracker.hasBaseline && l.peer.tracker.bootId != event.message.bootId)
    ensures !InSession(Next(l, c, event).port.state)
  {
    if event.Receive? {
      ReceiveEnds(l, c, event.message, event.now);
    }
  }

  // Whoever is in a session after being outside one has accepted, in between, the
  // HELLO_ACK that answers the last HELLO sent.
  lemma {:induction false} SessionNeedsHelloAck(c: Config, states: seq<Link>, events: seq<LinkEvent>, now: nat,
                                                i: nat, k: nat)
    requires Usable(c) && Trace(c, states, events, now) && i <= k < |states|
    requires !InSession(states[i].port.state) && InSession(states[k].port.state)
    ensures exists j :: i <= j < k && Accepts(states[j], c, events[j])
    decreases k - i
  {
    if InSession(states[i + 1].port.state) {
      TraceInv(c, states, events, now, i);
      SessionEntry(states[i], c, events[i]);
    } else {
      SessionNeedsHelloAck(c, states, events, now, i + 1, k);
    }
  }

  // ---- health ----

  function Rank(status: H.Status): nat {
    match status
    case UNHEALTHY => 2
    case DEGRADED => 1
    case _ => 0
  }

  function RankOf(l: Link): nat {
    Rank(l.health.record.current.status)
  }

  // An answer that matched: the only way to the state READY.
  predicate ReadyTransition(l: Link, next: Link, event: LinkEvent) {
    event.Receive? && l.port.wait.kind != AwaitNothing && next.port.wait.kind == AwaitNothing
    && next.port.state == READY
  }

  lemma StateKeepsRank(h: Health, previous: LinkState, state: LinkState)
    requires state != READY
    ensures Rank(HealthOnState(h, previous, state).record.current.status) >= Rank(h.record.current.status)
  {
  }

  lemma BodyKeepsRank(l: Link, c: Config, body: Body)
    ensures var next := HandleBody(l, c, body);
      RankOf(next) >= RankOf(l)
      || (l.port.wait.kind != AwaitNothing && next.port.wait.kind == AwaitNothing && next.port.state == READY)
  {
    match body {
      case HelloAckBody(_, _, _, _, _) =>
      case StatusBody =>
      case PongBody(_) =>
      case AnswerBody(_, _, _, _, _) =>
      case RequestBody =>
    }
  }

  lemma RebootKeepsRank(l: Link)
    ensures RankOf(PeerRebooted(l)) >= RankOf(l)
    ensures PeerRebooted(l).port.wait.kind == AwaitNothing
  {
  }

  lemma ReceiveKeepsRank(l: Link, c: Config, m: Received, now: nat)
    ensures var next := HandleFrame(l, c, m, now);
      RankOf(next) >= RankOf(l)
      || (l.port.wait.kind != AwaitNothing && next.port.wait.kind == AwaitNothing && next.port.state == READY)
  {
    var (tracker, relation) := Observed(l.peer.tracker, m.bootId, m.sequence);
    var observed := l.(peer := Peer(tracker, m.bootId, true), timers := l.timers.(clock := now));
    var bootChanged := l.peer.tracker.hasBaseline && l.peer.tracker.bootId != m.bootId;
    RebootKeepsRank(observed);
    var known := if bootChanged then PeerRebooted(observed) else observed;
    BodyKeepsRank(known.(timers := known.timers.(lastValidRx := now, haveValidRx := true)), c, m.body);
  }

  lemma StartKeepsRank(l: Link, c: Config, now: nat, opens: bool)
    ensures RankOf(BeginPass(l, c, now, opens)) >= RankOf(l)
  {
    var timed := l.(timers := l.timers.(clock := now, passNow := now));
    StateKeepsRank(timed.health, timed.port.state, OPENING);
    var opening := SetState(timed, OPENING);
    StateKeepsRank(opening.health, OPENING, NEGOTIATING);
  }

  lemma TimeoutsKeepRank(l: Link, c: Config)
    ensures RankOf(HandleTimeouts(l, c)) >= RankOf(l)
  {
    StateKeepsRank(l.health, l.port.state, NEGOTIATING);
    StateKeepsRank(l.health, l.port.state, DEGRADED);
    var timed := if Expired(l) then WindowExpired(l, c) else l;
    StateKeepsRank(timed.health, timed.port.state, LINK_LOST);
  }

  lemma RankKept(l: Link, c: Config, event: LinkEvent)
    requires Usable(c) && Inv(l, c) && Possible(l, event)
    requires !ReadyTransition(l, Next(l, c, event), event)
    ensures RankOf(Next(l, c, event)) >= RankOf(l)
  {
    match event {
      case QueueRequest(_) =>
      case QueuePing =>
      case AckHealth(_) =>
      case NoteNotReady =>
      case Start(now, opens) => StartKeepsRank(l, c, now, opens);
      case Timeouts => TimeoutsKeepRank(l, c);
      case Choose(_) =>
      case PollNothing =>
      case PollHangup(_) =>
      case PollReadable =>
      case PollWritable =>
      case Receive(message, now) => ReceiveKeepsRank(l, c, message, now);
      case ReceiveDone(_) =>
      case ReceiveFailed(_) =>
      case WritePart(_) =>
      case WriteAll(_) =>
      case WriteFailed(_) =>
    }
  }

  // Between two transitions to READY the severity of the health status never decreases.
  lemma {:induction false} SeverityNeverDecreases(c: Config, states: seq<Link>, events: seq<LinkEvent>, now: nat,
                                                  i: nat, k: nat)
    requires Usable(c) && Trace(c, states, events, now) && i <= k < |states|
    requires forall j :: i <= j < k ==> !ReadyTransition(states[j], states[j + 1], events[j])
    ensures RankOf(states[i]) <= RankOf(states[k])
    decreases k - i
  {
    if i < k {
      TraceInv(c, states, events, now, i);
      assert !ReadyTransition(states[i], states[i + 1], events[i]);
      RankKept(states[i], c, events[i]);
      SeverityNeverDecreases(c, states, events, now, i + 1, k);
    }
  }
}
