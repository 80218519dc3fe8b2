/** The link as the object whose I/O thread and callers update it in place. */
module UartLinkLoop {
  import opened Wrappers
  import opened Octets
  import opened UartFrames
  import opened UartSequences
  import opened UartReliable
  import opened UartLinks

  // The capacity-one mailbox for control values: the newest value wins.
  class LatestValueMailbox<T> {
    var value: Option<T>
    var putCount: nat
    var takeCount: nat
    var overwriteCount: nat
    ghost var cleared: nat

    // Every value put was taken, overwritten or cleared, or is still there.
    ghost predicate Valid()
      reads this
    {
      putCount == takeCount + overwriteCount + cleared + (if value.Some? then 1 else 0)
    }

    constructor ()
      ensures Valid() && value == None && putCount == 0
    {
      value, putCount, takeCount, overwriteCount, cleared := None, 0, 0, 0, 0;
    }

    method Put(item: T) returns (replaced: bool)
      requires Valid()
      modifies this
      ensures Valid() && value == Some(item) && replaced == old(value).Some?
      ensures putCount == old(putCount) + 1 && takeCount == old(takeCount) && cleared == old(cleared)
    {
      replaced := value.Some?;
      value := Some(item);
      putCount := putCount + 1;
      if replaced {
        overwriteCount := overwriteCount + 1;
      }
    }

    method Take() returns (item: Option<T>)
      requires Valid()
      modifies this
      ensures Valid() && item == old(value) && value == None
      ensures putCount == old(putCount) && overwriteCount == old(overwriteCount) && cleared == old(cleared)
    {
      if value.None? {
        return None;
      }
      item := value;
      value := None;
      takeCount := takeCount + 1;
    }

    method Clear()
      requires Valid()
      modifies this
      ensures Valid() && value == None
      ensures putCount == old(putCount) && takeCount == old(takeCount) && overwriteCount == old(overwriteCount)
    {
      if value.Some? {
        cleared := cleared + 1;
      }
      value := None;
    }
  }

  class UartLink {
    const config: Config
    const reliable: ReliableTransaction
    const peerSequence: SequenceTracker
    const health: H.UartHealthRecord

    var isOpen: bool
    var state: LinkState
    var tx: Option<TxFrame>
    var wait: Window
    var outstandingReliableType: MessageType

    var desk: Desk // the requests of other threads, and their counters

    var peerBootId: uint32
    var peerBootValid: bool
    var confirmedBoot: Option<uint32>
    var healthEverReady: bool

    var timers: Timers // the deadlines and clock readings of the I/O thread
    var log: Outbox // the next wire sequence, and history
    ghost var phase: Phase

    ghost function Model(): Link
      reads this, reliable, peerSequence, health
    {
      Link(Port(isOpen, state, tx, wait, reliable.Model(), outstandingReliableType),
           desk,
           Peer(peerSequence.Model(), peerBootId, peerBootValid),
           Health(health.projection, confirmedBoot, healthEverReady),
           timers, log, phase)
    }

    constructor (config: Config, now: nat)
      requires Usable(config)
      ensures Model() == Initial(now) && this.config == config
      ensures fresh(reliable) && fresh(peerSequence) && fresh(health)
    {
      this.config := config;
      reliable := new ReliableTransaction();
      peerSequence := new SequenceTracker();
      health := new H.UartHealthRecord();
      isOpen, state, tx, wait, outstandingReliableType := false, CLOSED, None, NO_WINDOW, REMOTE_STOP_REQUEST;
      desk := Desk(None, false, 0, None, 0, 0, 0, 0, 0);
      peerBootId, peerBootValid, confirmedBoot, healthEverReady := 0, false, None, false;
      timers := Timers(now, now, now, now, false, 0, now, now);
      log, phase := Outbox(0, [], 0, 0), Head;
    }

    // ---- calls from other threads ----

    method QueueReliable(ask: Ask) returns (ok: bool)
      modifies this
      ensures Model() == old(Model()).(desk := Queued(old(Model()).desk, ask).0)
      ensures ok == Queued(old(Model()).desk, ask).1
    {
      if desk.busy || desk.pending.Some? {
        return false;
      }
      var id := NextNonzero(desk.nextTransactionId);
      desk := desk.(nextTransactionId := id);
      desk := desk.(pending := Some(Request(ask.messageType, id, ask.reason)));
      desk := desk.(busy := true);
      desk := desk.(requests := desk.requests + 1);
      return true;
    }

    method RequestPing() returns (ok: bool)
      modifies this
      ensures Model() == old(Model()).(desk := PingAsked(old(Model()).desk).0)
      ensures ok == PingAsked(old(Model()).desk).1
    {
      if desk.ping.Some? {
        return false;
      }
      var id := NextNonzero(desk.nextPingId);
      desk := desk.(nextPingId := id, ping := Some(id));
      return true;
    }

    method NoteManagedStartupNotReady()
      modifies health
      ensures Model() == StartupNotReady(old(Model()))
    {
      if state != READY && state != CLOSED {
        health.Record(H.UNHEALTHY, H.startup_not_ready, confirmedBoot, false);
      }
    }

    method AckHealthIssueThrough(revision: nat)
      modifies health
      ensures Model() == HealthAcknowledged(old(Model()), revision)
    {
      health.AckThrough(revision);
    }

    // ---- the state and the health that follows it ----

    method SetState(next: LinkState)
      modifies this, health
      ensures Model() == UartLinks.SetState(old(Model()), next)
    {
      var previous := state;
      state := next;
      var current := health.projection.current;
      match next {
        case OPENING =>
          health.Record(if H.Adverse(current.status) then current.status else H.CONNECTING,
                        if current.reason == H.peer_reboot then H.peer_reboot else H.opening,
                        confirmedBoot, false);
        case NEGOTIATING =>
          health.Record(if H.Adverse(current.status) then current.status else H.CONNECTING,
                        if current.reason == H.peer_reboot then H.peer_reboot else H.negotiating,
                        confirmedBoot, previous == OPENING || previous == LINK_LOST);
        case READY =>
          health.Record(H.HEALTHY,
                        if healthEverReady && current.status != H.HEALTHY then H.recovered
                        else if current.status == H.HEALTHY then current.reason else H.ready,
                        confirmedBoot, false);
          healthEverReady := true;
        case DEGRADED =>
          health.Record(if current.status == H.UNHEALTHY then H.UNHEALTHY else H.DEGRADED,
                        if current.status == H.UNHEALTHY then current.reason else H.response_timeout,
                        confirmedBoot, false);
        case LINK_LOST =>
          health.Record(H.UNHEALTHY, H.link_lost, confirmedBoot, false);
        case CLOSED =>
      }
    }

    method ObserveConfirmedBoot()
      modifies this, health
      ensures Model() == old(Model()).(health := ConfirmedBoot(old(Model()).health, old(Model()).peer))
    {
      if !peerBootValid {
        return;
      }
      if confirmedBoot.Some? && confirmedBoot.value != peerBootId {
        var current := health.projection.current;
        health.Record(if current.status == H.UNHEALTHY then H.UNHEALTHY else H.DEGRADED,
                      H.peer_reboot, Some(peerBootId), false);
      }
      confirmedBoot := Some(peerBootId);
    }

    method NotePeerRenegotiation()
      modifies health
      ensures Model() == old(Model()).(health := PeerRenegotiation(old(Model()).health))
    {
      var current := health.projection.current;
      health.Record(if current.status == H.UNHEALTHY then H.UNHEALTHY else H.DEGRADED,
                    H.peer_reboot, confirmedBoot, true);
    }

    // ---- the port ----

    method ClearWait()
      modifies this
      ensures Model() == UartLinks.ClearWait(old(Model()))
    {
      wait := NO_WINDOW;
    }

    method ReleaseReliableBusy()
      modifies this
      ensures Model() == old(Model()).(desk := BusyReleased(old(Model()).desk))
    {
      desk := desk.(busy := false);
    }

    method FailOutstandingReliable()
      modifies this, reliable
      ensures Model() == FailOutstanding(old(Model()))
    {
      if !reliable.outstanding {
        return;
      }
      reliable.Cancel();
      desk := desk.(failures := desk.failures + 1);
      ReleaseReliableBusy();
    }

    // The port has been opened.
    method StartNegotiating(now: nat)
      modifies this, reliable, peerSequence, health
      ensures Model() == Reopened(old(Model()), config, now)
    {
      isOpen := true;
      peerSequence.Reset();
      tx := None;
      ClearWait();
      reliable.Cancel();
      timers := timers.(nextHello := now, nextHeartbeat := now + config.heartbeatPeriod,
                        nextControl := now, haveValidRx := false);
      peerBootId, peerBootValid := 0, false;
      assert Model() == old(Model()).(port := Model().port, peer := Model().peer, timers := Model().timers);
      SetState(NEGOTIATING);
    }

    // The head of the loop.
    method OpenIfDue(now: nat, opens: bool)
      modifies this, reliable, peerSequence, health
      ensures Model() == BeginPass(old(Model()), config, now, opens)
    {
      timers := timers.(clock := now, passNow := now);
      if !isOpen && now >= timers.nextOpen {
        SetState(OPENING);
        if opens {
          StartNegotiating(now);
        } else {
          health.Record(H.UNHEALTHY, H.open_failed, confirmedBoot, false);
          timers := timers.(nextOpen := now + config.openRetry);
        }
      }
    }

    method Reconnect(now: nat)
      modifies this, reliable, peerSequence, health
      ensures Model() == UartLinks.Reconnect(old(Model()), config, now)
    {
      isOpen := false;
      tx := None;
      wait := NO_WINDOW;
      peerSequence.Reset();
      peerBootValid := false;
      timers := timers.(clock := now, nextOpen := now + config.openRetry);
      assert Model() == old(Model()).(port := Model().port, peer := Model().peer, timers := Model().timers);
      FailOutstandingReliable();
      SetState(LINK_LOST);
    }

    // The response window has run out.
    method ExpireWindow()
      modifies this, health
      ensures Model() == WindowExpired(old(Model()), config)
    {
      var expired := wait.kind;
      ClearWait();
      if expired == AwaitHelloAck {
        timers := timers.(nextHello := timers.passNow);
        SetState(NEGOTIATING);
      } else if expired == AwaitReliable {
        SetState(DEGRADED);
      } else {
        timers := timers.(nextHeartbeat := timers.passNow + config.heartbeatPeriod);
        SetState(DEGRADED);
      }
    }

    // The watchdog has run out.
    method LoseLink()
      modifies this, reliable, peerSequence, health
      ensures Model() == WatchdogLoss(old(Model()))
    {
      SetState(LINK_LOST);
      tx := None;
      ClearWait();
      FailOutstandingReliable();
      peerSequence.Reset();
      timers := timers.(haveValidRx := false, nextHello := timers.passNow + 1);
      peerBootValid := false;
    }

    method HandleTimeouts()
      requires !timers.haveValidRx || timers.lastValidRx <= timers.passNow // kept by every run: WatchdogNeverWraps
      modifies this, reliable, peerSequence, health
      ensures Model() == UartLinks.HandleTimeouts(old(Model()), config)
    {
      if wait.kind != AwaitNothing && timers.passNow >= wait.deadline {
        ExpireWindow();
      }
      if (state == READY || state == DEGRADED) && timers.haveValidRx
         && timers.passNow - timers.lastValidRx >= config.watchdogTimeout {
        LoseLink();
      }
    }

    // ---- sending ----

    method AllocateWireSequence() returns (sequence: uint32)
      modifies this`log
      ensures sequence == old(log.nextWireSequence) && Model() == SequenceTaken(old(Model()))
    {
      sequence := log.nextWireSequence;
      log := log.(nextWireSequence := (sequence + 1) % MODULUS);
    }

    method Transmit(frame: TxFrame)
      modifies this`tx, this`log
      ensures Model() == StartTx(old(Model()), frame)
    {
      tx := Some(frame);
      log := log.(started := log.started + [frame]);
    }

    method SendHello(encoded: seq<byte>)
      modifies this
      ensures Model() == UartLinks.SendHello(old(Model()), config, encoded)
    {
      var sequence := AllocateWireSequence();
      log := log.(helloSequence := sequence);
      Transmit(TxFrame(encoded, 0, HELLO, AwaitHelloAck, sequence, false, 0));
      timers := timers.(nextHello := timers.passNow + config.helloPeriod);
    }

    method SendHeartbeat(encoded: seq<byte>)
      modifies this
      ensures Model() == SendPlain(old(Model()).(timers := old(Model()).timers.(
                                     nextHeartbeat := old(timers.passNow) + config.heartbeatPeriod)),
                                   encoded, HEARTBEAT, AwaitStatus, old(log.nextWireSequence))
    {
      var sequence := AllocateWireSequence();
      Transmit(TxFrame(encoded, 0, HEARTBEAT, AwaitStatus, sequence, false, 0));
      timers := timers.(nextHeartbeat := timers.passNow + config.heartbeatPeriod);
    }

    method SendReliable(request: Request, encoded: seq<byte>)
      requires desk.pending == None
      modifies this, reliable
      ensures Model() == UartLinks.SendReliable(old(Model()), config, request, encoded)
    {
      var sequence := AllocateWireSequence();
      var ok := reliable.Begin(request.messageType, request.transactionId, sequence, encoded, timers.passNow,
                               config.reliableTimeout, config.maxRetries);
      if !ok {
        ReleaseReliableBusy();
        return;
      }
      outstandingReliableType := request.messageType;
      log := log.(begun := log.begun + 1);
      Transmit(TxFrame(encoded, 0, request.messageType, AwaitReliable, request.transactionId, false, log.begun));
    }

    // `encoded` is what encoding the chosen message gives; `late` is a request that
    // another thread queues after the poll of the transaction.
    method Schedule(offer: Offer)
      modifies this, reliable, health
      ensures Model() == UartLinks.Schedule(old(Model()), config, offer)
    {
      if tx.Some? || wait.kind != AwaitNothing || !isOpen {
        return;
      }
      if state == LINK_LOST {
        if timers.passNow >= timers.nextHello {
          SetState(NEGOTIATING);
        }
        return;
      }
      if state == NEGOTIATING && timers.passNow >= timers.nextHello {
        SendHello(offer.encoded);
        return;
      }
      if state != READY && state != DEGRADED {
        return;
      }
      ScheduleInSession(offer);
    }

    method ScheduleInSession(offer: Offer)
      modifies this, reliable
      ensures Model() == ScheduleSession(old(Model()), config, offer)
    {
      var poll := reliable.Poll(timers.passNow);
      if poll.Retry? {
        Transmit(TxFrame(poll.frame, 0, outstandingReliableType, AwaitReliable,
                         reliable.transactionId, true, log.begun));
        return;
      }
      if poll.Failed? {
        ReleaseReliableBusy();
        desk := desk.(failures := desk.failures + 1);
      }
      if offer.late.Some? {
        var _ := QueueReliable(offer.late.value);
      }
      ScheduleWork(offer);
    }

    // The rest of Schedule, once the transaction has been polled.
    method ScheduleWork(offer: Offer)
      modifies this, reliable
      ensures Model() == ScheduleRest(old(Model()), config, offer)
    {
      if !reliable.outstanding {
        if desk.pending.Some? {
          var request := desk.pending.value;
          desk := desk.(pending := None);
          SendReliable(request, offer.encoded);
          return;
        }
      }
      if timers.passNow >= timers.nextHeartbeat {
        SendHeartbeat(offer.encoded);
        return;
      }
      if desk.ping.Some? {
        var id := desk.ping.value;
        desk := desk.(ping := None);
        var _ := AllocateWireSequence();
        Transmit(TxFrame(offer.encoded, 0, PING, AwaitPong, id, false, 0));
        return;
      }
      if timers.passNow >= timers.nextControl && offer.control {
        var _ := AllocateWireSequence();
        Transmit(TxFrame(offer.encoded, 0, CONTROL_UPDATE, AwaitNothing, 0, false, 0));
        timers := timers.(nextControl := timers.passNow + config.controlPeriod);
      }
    }

    method CompleteTransmit(now: nat)
      requires tx.Some?
      modifies this
      ensures Model() == UartLinks.CompleteTransmit(old(Model()), config, now)
    {
      var completed := tx.value;
      tx := None;
      timers := timers.(clock := now);
      if completed.response != AwaitNothing {
        var timeout := if completed.response == AwaitReliable then config.reliableTimeout
                       else config.responseTimeout;
        wait := Window(completed.response, now + timeout, completed.expectedId);
      }
    }

    // ---- receiving ----

    method HandleHelloAck(ack: Body)
      requires ack.HelloAckBody?
      modifies this, health
      ensures Model() == UartLinks.HandleHelloAck(old(Model()), config, ack)
    {
      if wait.kind == AwaitHelloAck && ack.helloSequence == wait.expectedId && ack.accepted == 0 {
        health.Record(H.UNHEALTHY, H.hello_rejected, confirmedBoot, false);
      }
      if wait.kind != AwaitHelloAck || ack.helloSequence != wait.expectedId || ack.accepted == 0
         || ack.version != PROTOCOL_VERSION || ack.role != config.expectedRole
         || ack.maxPayload < MAX_PAYLOAD_SIZE {
        return;
      }
      ClearWait();
      ObserveConfirmedBoot();
      SetState(READY);
    }

    method HandleReliableResponse(answer: Body)
      requires answer.AnswerBody?
      modifies this, reliable, health
      ensures Model() == HandleAnswer(old(Model()), answer)
    {
      if wait.kind != AwaitReliable {
        return;
      }
      var known := TypeOfCode(answer.ackedType);
      if known.None? {
        return;
      }
      var response := reliable.HandleResponse(known.value, answer.transactionId, answer.acknowledged,
                                              answer.result, answer.detail);
      if response.Unmatched? {
        return;
      }
      ClearWait();
      ReleaseReliableBusy();
      if answer.acknowledged {
        desk := desk.(acks := desk.acks + 1);
      } else {
        desk := desk.(nacks := desk.nacks + 1);
      }
      SetState(READY);
    }

    method HandleBody(body: Body)
      modifies this, reliable, health
      ensures Model() == UartLinks.HandleBody(old(Model()), config, body)
    {
      match body {
        case HelloAckBody(_, _, _, _, _) => HandleHelloAck(body);
        case StatusBody =>
          if wait.kind == AwaitStatus {
            ClearWait();
            SetState(READY);
          }
        case PongBody(id) =>
          if wait.kind == AwaitPong && id == wait.expectedId {
            ClearWait();
            SetState(READY);
          }
        case AnswerBody(_, _, _, _, _) => HandleReliableResponse(body);
        case RequestBody =>
      }
    }

    // The peer has rebooted.
    method RestartNegotiation()
      modifies this, reliable, health
      ensures Model() == PeerRebooted(old(Model()))
    {
      NotePeerRenegotiation();
      ClearWait();
      tx := None;
      FailOutstandingReliable();
      SetState(NEGOTIATING);
    }

    method HandleFrame(message: Received, now: nat)
      modifies this, reliable, peerSequence, health
      ensures Model() == UartLinks.HandleFrame(old(Model()), config, message, now)
    {
      var bootChanged := peerSequence.hasBaseline && peerSequence.bootId != message.bootId;
      var relation := peerSequence.Observe(message.bootId, message.sequence);
      timers := timers.(clock := now);
      peerBootId, peerBootValid := message.bootId, true;
      if bootChanged {
        RestartNegotiation();
      }
      if relation == DUPLICATE || relation == OLDER {
        return;
      }
      timers := timers.(lastValidRx := now, haveValidRx := true);
      HandleBody(message.body);
    }
  }
}
