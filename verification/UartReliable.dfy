/** The retry transaction behind one reliable request. */
module UartReliable {
  import opened Transducers
  import opened Octets
  import opened UartFrames
  import opened UartSequences

  datatype Transaction = Transaction(
    outstanding: bool, messageType: MessageType, transactionId: uint32, wireSequence: uint32,
    frame: seq<byte>, deadline: nat, timeout: nat, maxRetries: nat, retries: nat)

  const IDLE := Transaction(false, REMOTE_STOP_REQUEST, 0, 0, [], 0, 0, 0, 0)

  function Begun(t: Transaction, messageType: MessageType, id: uint32, sequence: uint32,
                 frame: seq<byte>, now: nat, timeout: nat, maxRetries: nat): (r: (Transaction, bool)) {
    if t.outstanding || frame == [] || timeout == 0 then (t, false)
    else (Transaction(true, messageType, id, sequence, frame, now + timeout, timeout, maxRetries, 0), true)
  }

  datatype PollResult = Nothing | Retry(frame: seq<byte>) | Failed

  function Polled(t: Transaction, now: nat): (r: (Transaction, PollResult)) {
    if !t.outstanding || now < t.deadline then (t, Nothing)
    else if t.retries >= t.maxRetries then (IDLE, Failed)
    else (t.(retries := t.retries + 1, deadline := now + t.timeout), Retry(t.frame))
  }

  datatype Response = Unmatched | Matched(acknowledged: bool, result: bv16, detail: bv16)

  function Responded(t: Transaction, ackedType: MessageType, id: uint32, acknowledged: bool,
                     result: bv16, detail: bv16): (r: (Transaction, Response)) {
    if !t.outstanding || ackedType != t.messageType || id != t.transactionId then (t, Unmatched)
    else (IDLE, Matched(acknowledged, result, detail))
  }

  class ReliableTransaction {
    var outstanding: bool
    var messageType: MessageType
    var transactionId: uint32
    var wireSequence: uint32
    var encodedFrame: seq<byte>
    var deadlineMs: nat
    var timeoutMs: nat
    var maximumRetries: nat
    var retriesPerformed: nat

    ghost function Model(): Transaction
      reads this
    {
      Transaction(outstanding, messageType, transactionId, wireSequence, encodedFrame,
                  deadlineMs, timeoutMs, maximumRetries, retriesPerformed)
    }

    constructor ()
      ensures Model() == IDLE
    {
      outstanding, messageType, transactionId, wireSequence := false, REMOTE_STOP_REQUEST, 0, 0;
      encodedFrame, deadlineMs, timeoutMs, maximumRetries, retriesPerformed := [], 0, 0, 0, 0;
    }

    method Begin(messageType: MessageType, transactionId: uint32, wireSequence: uint32,
                 encodedFrame: seq<byte>, now: nat, timeoutMs: nat, maximumRetries: nat) returns (ok: bool)
      modifies this
      ensures (Model(), ok) == Begun(old(Model()), messageType, transactionId, wireSequence,
                                     encodedFrame, now, timeoutMs, maximumRetries)
    {
      if outstanding || encodedFrame == [] || timeoutMs == 0 {
        return false;
      }
      outstanding := true;
      this.messageType := messageType;
      this.transactionId := transactionId;
      this.wireSequence := wireSequence;
      this.encodedFrame := encodedFrame;
      this.timeoutMs := timeoutMs;
      this.maximumRetries := maximumRetries;
      retriesPerformed := 0;
      deadlineMs := now + timeoutMs;
      return true;
    }

    method Poll(now: nat) returns (result: PollResult)
      modifies this
      ensures (Model(), result) == Polled(old(Model()), now)
    {
      if !outstanding || now < deadlineMs {
        return Nothing;
      }
      if retriesPerformed >= maximumRetries {
        Cancel();
        return Failed;
      }
      retriesPerformed := retriesPerformed + 1;
      deadlineMs := now + timeoutMs;
      return Retry(encodedFrame);
    }

    method HandleResponse(ackedType: MessageType, id: uint32, acknowledged: bool,
                          result: bv16, detail: bv16) returns (response: Response)
      modifies this
      ensures (Model(), response) == Responded(old(Model()), ackedType, id, acknowledged, result, detail)
    {
      if !outstanding || ackedType != messageType || id != transactionId {
        return Unmatched;
      }
      response := Matched(acknowledged, result, detail);
      Cancel();
    }

    method Cancel()
      modifies this
      ensures Model() == IDLE
    {
      outstanding, messageType, transactionId, wireSequence := false, REMOTE_STOP_REQUEST, 0, 0;
      encodedFrame, deadlineMs, timeoutMs, maximumRetries, retriesPerformed := [], 0, 0, 0, 0;
    }
  }

  // ---- one transaction from Begin to its end ----

  // What can happen to a transaction between its Begin and the next one.
  datatype Event =
    | Poll(now: nat)
    | Respond(ackedType: MessageType, id: uint32, acknowledged: bool, result: bv16, detail: bv16)
    | Cancelled

  // What the link sees of it.
  datatype Effect = Transmit(frame: seq<byte>, at: nat) | Answered(acknowledged: bool) | GaveUp(at: nat)

  function React(t: Transaction, event: Event): (Transaction, seq<Effect>) {
    match event
    case Poll(now) =>
      var (after, result) := Polled(t, now);
      (after, match result
              case Nothing => []
              case Retry(frame) => [Transmit(frame, now)]
              case Failed => [GaveUp(now)])
    case Respond(ackedType, id, acknowledged, code, detail) =>
      var (after, response) := Responded(t, ackedType, id, acknowledged, code, detail);
      (after, if response.Matched? then [Answered(response.acknowledged)] else [])
    case Cancelled => (IDLE, [])
  }

  // The first transmission is the caller's, right after Begin; the effects add the others.
  ghost function Whole(frame: seq<byte>, begun: nat, effects: seq<Effect>): seq<Effect> {
    [Transmit(frame, begun)] + effects
  }

  // All but possibly the last effect are transmissions of one frame, each at least
  // the timeout after the one before.
  ghost predicate Paced(effects: seq<Effect>, frame: seq<byte>, timeout: nat, n: nat) {
    && n <= |effects|
    && (forall i :: 0 <= i < n ==> effects[i].Transmit? && effects[i].frame == frame)
    && (forall i :: 0 < i < n ==> effects[i - 1].at + timeout <= effects[i].at)
  }

  ghost predicate Progress(t: Transaction, frame: seq<byte>, timeout: nat, maxRetries: nat, effects: seq<Effect>) {
    var n := |effects|;
    if t.outstanding then
      && 1 <= n == t.retries + 1 <= maxRetries + 1
      && t.frame == frame && t.timeout == timeout && t.maxRetries == maxRetries
      && Paced(effects, frame, timeout, n)
      && t.deadline == effects[n - 1].at + timeout
    else
      || (1 <= n <= maxRetries + 1 && Paced(effects, frame, timeout, n))
      || (&& 2 <= n <= maxRetries + 2 && Paced(effects, frame, timeout, n - 1)
          && !effects[n - 1].Transmit?
          && (effects[n - 1].GaveUp? ==>
                && n == maxRetries + 2 && effects[n - 2].at + timeout <= effects[n - 1].at))
  }

  // The poll that retries sends the frame once more.
  lemma RetryProgresses(t: Transaction, now: nat, frame: seq<byte>, timeout: nat, maxRetries: nat,
                        effects: seq<Effect>)
    requires Progress(t, frame, timeout, maxRetries, effects) && Polled(t, now).1.Retry?
    ensures Progress(Polled(t, now).0, frame, timeout, maxRetries, effects + [Transmit(Polled(t, now).1.frame, now)])
  {
  }

  // An answer or giving up ends it.
  lemma EndProgresses(t: Transaction, end: Effect, frame: seq<byte>, timeout: nat, maxRetries: nat,
                      effects: seq<Effect>)
    requires Progress(t, frame, timeout, maxRetries, effects) && t.outstanding && !end.Transmit?
    requires end.GaveUp? ==> t.deadline <= end.at && t.retries >= t.maxRetries
    ensures Progress(IDLE, frame, timeout, maxRetries, effects + [end])
  {
  }

  lemma ReactProgresses(t: Transaction, event: Event, frame: seq<byte>, timeout: nat,
                        maxRetries: nat, effects: seq<Effect>)
    requires Progress(t, frame, timeout, maxRetries, effects)
    ensures Progress(React(t, event).0, frame, timeout, maxRetries, effects + React(t, event).1)
  {
    var after, more := React(t, event).0, React(t, event).1;
    if more == [] {
      assert effects + more == effects;
    } else if more[0].Transmit? {
      RetryProgresses(t, event.now, frame, timeout, maxRetries, effects);
    } else {
      EndProgresses(t, more[0], frame, timeout, maxRetries, effects);
      assert more == [more[0]];
    }
  }

  // From a successful Begin, whatever follows: at most one frame and its retries are
  // sent, all the same bytes and each a timeout apart, then at most one final outcome;
  // giving up takes every retry.
  lemma {:induction false} TransactionIsBounded(begun: Transaction, now: nat, events: seq<Event>)
    requires begun.outstanding && begun.retries == 0 && begun.deadline == now + begun.timeout
    ensures var (after, effects) := Run(React, begun, events);
            Progress(after, begun.frame, begun.timeout, begun.maxRetries, Whole(begun.frame, now, effects))
    decreases |events|
  {
    if events != [] {
      var front := events[..|events| - 1];
      TransactionIsBounded(begun, now, front);
      var (before, effects) := Run(React, begun, front);
      var event := events[|events| - 1];
      ReactProgresses(before, event, begun.frame, begun.timeout, begun.maxRetries,
                      Whole(begun.frame, now, effects));
      assert Whole(begun.frame, now, effects) + React(before, event).1
          == Whole(begun.frame, now, effects + React(before, event).1);
    }
  }

  // Nothing is lost silently: an outstanding transaction whose deadline has passed is
  // retried or given up by the next poll, and is never polled into silence.
  lemma ExpiredIsHandled(t: Transaction, now: nat)
    requires t.outstanding && now >= t.deadline
    ensures var (after, result) := Polled(t, now);
      && !result.Nothing?
      && (result.Retry? <==> t.retries < t.maxRetries)
      && (result.Retry? ==> result.frame == t.frame && after.outstanding && after.deadline == now + t.timeout)
      && (result.Failed? ==> !after.outstanding)
  {
  }
}
