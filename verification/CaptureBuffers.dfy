/**
 The vocabulary of the zero-copy capture path and the meaning of the buffer
 broker: one slot per driver buffer, one or two leases per published frame,
 and a list of completed buffers waiting to be queued to the driver again.
 */
module CaptureBuffers {
  import opened Wrappers

  datatype Consumer = VideoEncoder | Inference

  // The consumer mask, decoded.
  datatype Consumers = Consumers(video: bool, inference: bool) {
    predicate Has(c: Consumer) {
      match c
      case VideoEncoder => video
      case Inference => inference
    }

    function With(c: Consumer): Consumers {
      match c
      case VideoEncoder => Consumers(true, inference)
      case Inference => Consumers(video, true)
    }

    function Count(): nat {
      (if video then 1 else 0) + (if inference then 1 else 0)
    }
  }

  const NOBODY := Consumers(false, false)

  datatype Identity = Identity(session: nat, frame: nat, v4l2Sequence: nat, captureNs: int)

  datatype Key = Key(session: nat, frame: nat, index: nat)

  datatype Plane = Plane(mapped: bool, dmaFd: int, allocation: nat, offset: nat, used: nat)

  datatype Frame = Frame(identity: Identity, index: nat, width: int, height: int, planes: seq<Plane>)

  datatype Request = Request(key: Key, identity: Identity)

  function KeyOf(f: Frame): Key {
    Key(f.identity.session, f.identity.frame, f.index)
  }

  function RequestOf(f: Frame): Request {
    Request(KeyOf(f), f.identity)
  }

  const MAX_FRAME_PLANES := 3

  predicate ValidFrame(f: Frame, requireDmabuf: bool) {
    && f.width > 0 && f.height > 0
    && 0 < |f.planes| <= MAX_FRAME_PLANES
    && forall p :: p in f.planes ==>
         && p.mapped
         && (requireDmabuf ==> p.dmaFd >= 0)
         && p.allocation > 0
         && p.offset <= p.allocation
         && p.used <= p.allocation - p.offset
  }

  datatype Slot =
    | Vacant
    | Occupied(frame: Frame, requested: Consumers, released: Consumers,
               remaining: int, completionQueued: bool)

  datatype Stats = Stats(
    accepted: nat, rejected: nat, invalidPublish: nat, duplicatePublish: nat,
    leasesCreated: nat, leasesReleased: nat, duplicateReleases: nat, staleReleases: nat,
    emitted: nat, popped: nat, outstandingFrames: int, outstandingLeases: int,
    pending: nat, highFrames: int, highLeases: int)

  const NO_STATS := Stats(0, 0, 0, 0, 0, 0, 0, 0, 0, 0, 0, 0, 0, 0, 0)

  datatype Broker = Broker(slots: seq<Slot>, completions: seq<Request>, closed: bool, stats: Stats)

  function Fresh(buffers: nat): Broker {
    Broker(seq(buffers, i => Vacant), [], false, NO_STATS)
  }

  function Max(a: int, b: int): int {
    if a < b then b else a
  }

  // ----- operations, one critical section each -----

  datatype PublishInput = PublishInput(frame: Frame, consumers: Consumers, wellFormed: bool)

  // `wellFormed` is the outcome of the frame and mask validation.
  function Publish(b: Broker, input: PublishInput): (r: (Broker, bool)) {
    if !input.wellFormed || input.consumers == NOBODY || input.frame.index >= |b.slots| then
      (b.(stats := b.stats.(rejected := b.stats.rejected + 1,
                            invalidPublish := b.stats.invalidPublish + 1)), false)
    else if b.closed then
      (b.(stats := b.stats.(rejected := b.stats.rejected + 1)), false)
    else if b.slots[input.frame.index].Occupied? then
      (b.(stats := b.stats.(rejected := b.stats.rejected + 1,
                            duplicatePublish := b.stats.duplicatePublish + 1)), false)
    else
      var count := input.consumers.Count();
      var frames, leases := b.stats.outstandingFrames + 1, b.stats.outstandingLeases + count;
      (b.(slots := b.slots[input.frame.index :=
                             Occupied(input.frame, input.consumers, NOBODY, count, false)],
          stats := b.stats.(accepted := b.stats.accepted + 1,
                            leasesCreated := b.stats.leasesCreated + count,
                            outstandingFrames := frames, outstandingLeases := leases,
                            highFrames := Max(b.stats.highFrames, frames),
                            highLeases := Max(b.stats.highLeases, leases))), true)
  }

  // The frame named by the key is in its slot.
  predicate Holds(b: Broker, key: Key) {
    && key.index < |b.slots|
    && b.slots[key.index].Occupied?
    && KeyOf(b.slots[key.index].frame) == key
  }

  // The slot of a release that is neither stale nor a duplicate.
  predicate Releasable(b: Broker, key: Key, c: Consumer) {
    && Holds(b, key)
    && b.slots[key.index].requested.Has(c)
    && !b.slots[key.index].released.Has(c)
  }

  function ReleaseLease(b: Broker, key: Key, c: Consumer): (r: (Broker, bool)) {
    if key.index >= |b.slots| || b.slots[key.index].Vacant?
       || KeyOf(b.slots[key.index].frame) != key || !b.slots[key.index].requested.Has(c) then
      (b.(stats := b.stats.(staleReleases := b.stats.staleReleases + 1)), false)
    else if b.slots[key.index].released.Has(c) then
      (b.(stats := b.stats.(duplicateReleases := b.stats.duplicateReleases + 1)), false)
    else
      var held := b.slots[key.index];
      var slot := held.(released := held.released.With(c), remaining := held.remaining - 1);
      var stats := b.stats.(leasesReleased := b.stats.leasesReleased + 1,
                            outstandingLeases := b.stats.outstandingLeases - 1);
      if slot.remaining != 0 then
        (b.(slots := b.slots[key.index := slot], stats := stats), true)
      else if |b.completions| >= |b.slots| then
        (b.(slots := b.slots[key.index := slot],
            stats := stats.(staleReleases := stats.staleReleases + 1)), false)
      else
        (b.(slots := b.slots[key.index := slot.(completionQueued := true)],
            completions := b.completions + [Request(key, slot.frame.identity)],
            stats := stats.(emitted := stats.emitted + 1, pending := |b.completions| + 1)), true)
  }

  function PopRequeue(b: Broker): (r: (Broker, Option<Request>)) {
    if b.completions == [] then (b, None)
    else
      var request := b.completions[0];
      var index := request.key.index;
      var owned := index < |b.slots| && b.slots[index].Occupied?
                    && b.slots[index].completionQueued && KeyOf(b.slots[index].frame) == request.key;
      (b.(slots := if owned then b.slots[index := Vacant] else b.slots,
          completions := b.completions[1..],
          stats := b.stats.(
            outstandingFrames := b.stats.outstandingFrames - if owned then 1 else 0,
            popped := b.stats.popped + 1,
            pending := |b.completions| - 1)), Some(request))
  }

  // The predicate on which WaitPopRequeue blocks.
  predicate CanWaitPop(b: Broker) {
    |b.completions| > 0 || (b.closed && b.stats.outstandingFrames == 0)
  }

  function Close(b: Broker): Broker {
    b.(closed := true)
  }

  // ----- the invariant -----

  datatype Measure = Frames | Leases | Completions

  function Weight(slot: Slot, m: Measure): int {
    if slot.Vacant? then 0
    else match m
      case Frames => 1
      case Leases => slot.remaining
      case Completions => if slot.completionQueued then 1 else 0
  }

  function Total(slots: seq<Slot>, m: Measure): int {
    if slots == [] then 0 else Weight(slots[0], m) + Total(slots[1..], m)
  }

  ghost predicate SlotOk(slot: Slot, i: nat) {
    slot.Occupied? ==>
      && slot.frame.index == i
      && slot.requested != NOBODY
      && (slot.released.video ==> slot.requested.video)
      && (slot.released.inference ==> slot.requested.inference)
      && slot.remaining == slot.requested.Count() - slot.released.Count()
      && (slot.completionQueued <==> slot.remaining == 0)
  }

  // A completion names a slot all of whose leases are released.
  ghost predicate CompletionOk(b: Broker, r: Request) {
    && r.key.index < |b.slots|
    && b.slots[r.key.index].Occupied?
    && b.slots[r.key.index].completionQueued
    && r == RequestOf(b.slots[r.key.index].frame)
  }

  ghost predicate CountersOk(b: Broker) {
    && b.stats.outstandingFrames == Total(b.slots, Frames) == b.stats.accepted - b.stats.popped
    && b.stats.outstandingLeases == Total(b.slots, Leases)
                                 == b.stats.leasesCreated - b.stats.leasesReleased
    && |b.completions| == Total(b.slots, Completions) == b.stats.emitted - b.stats.popped
    && b.stats.pending == |b.completions|
    && b.stats.outstandingFrames <= b.stats.highFrames
    && b.stats.outstandingLeases <= b.stats.highLeases
  }

  ghost predicate Inv(b: Broker) {
    && (forall i :: 0 <= i < |b.slots| ==> SlotOk(b.slots[i], i))
    && (forall j :: 0 <= j < |b.completions| ==> CompletionOk(b, b.completions[j]))
    && (forall j, k :: 0 <= j < k < |b.completions| ==>
          b.completions[j].key.index != b.completions[k].key.index)
    && (forall i :: 0 <= i < |b.slots| && b.slots[i].Occupied? && b.slots[i].completionQueued ==>
          RequestOf(b.slots[i].frame) in b.completions)
    && CountersOk(b)
  }

  lemma {:induction false} TotalUpdate(slots: seq<Slot>, i: nat, slot: Slot, m: Measure)
    requires i < |slots|
    ensures Total(slots[i := slot], m) == Total(slots, m) - Weight(slots[i], m) + Weight(slot, m)
  {
    if i == 0 {
      assert slots[i := slot][1..] == slots[1..];
    } else {
      assert slots[i := slot][1..] == slots[1..][i - 1 := slot];
      TotalUpdate(slots[1..], i - 1, slot, m);
    }
  }

  lemma TotalUpdates(slots: seq<Slot>, i: nat, slot: Slot)
    requires i < |slots|
    ensures forall m :: Total(slots[i := slot], m) == Total(slots, m) - Weight(slots[i], m) + Weight(slot, m)
  {
    forall m ensures Total(slots[i := slot], m) == Total(slots, m) - Weight(slots[i], m) + Weight(slot, m) {
      TotalUpdate(slots, i, slot, m);
    }
  }

  lemma {:induction false} TotalVacant(n: nat, m: Measure)
    ensures Total(seq(n, i => Vacant), m) == 0
  {
    if n > 0 {
      assert seq(n, i => Vacant)[1..] == seq(n - 1, i => Vacant);
      TotalVacant(n - 1, m);
    }
  }

  // A slot whose completion is not listed leaves room in the completion ring.
  lemma {:induction false} CompletionsBelowSlots(slots: seq<Slot>, i: nat)
    requires i < |slots| && Weight(slots[i], Completions) == 0
    ensures Total(slots, Completions) < |slots|
  {
    if i == 0 {
      CompletionsAtMost(slots[1..]);
    } else {
      CompletionsBelowSlots(slots[1..], i - 1);
    }
  }

  lemma {:induction false} CompletionsAtMost(slots: seq<Slot>)
    ensures 0 <= Total(slots, Completions) <= |slots|
  {
    if slots != [] {
      CompletionsAtMost(slots[1..]);
    }
  }

  // The converse of a zero count: nothing is occupied.
  lemma {:induction false} NoFramesNoSlots(slots: seq<Slot>)
    ensures Total(slots, Frames) >= 0
    ensures Total(slots, Frames) == 0 <==> forall i :: 0 <= i < |slots| ==> slots[i].Vacant?
  {
    if slots != [] {
      NoFramesNoSlots(slots[1..]);
      if forall i :: 0 <= i < |slots| ==> slots[i].Vacant? {
        forall i | 0 <= i < |slots[1..]| ensures slots[1..][i].Vacant? {
          assert slots[1..][i] == slots[i + 1];
        }
      } else if slots[0].Vacant? {
        var i :| 0 <= i < |slots| && !slots[i].Vacant?;
        assert slots[1..][i - 1] == slots[i];
      }
    }
  }

  lemma FreshInv(buffers: nat)
    ensures Inv(Fresh(buffers))
  {
    assert Total(Fresh(buffers).slots, Frames) == Total(Fresh(buffers).slots, Leases)
        == Total(Fresh(buffers).slots, Completions) == 0 by {
      TotalVacant(buffers, Frames);
      TotalVacant(buffers, Leases);
      TotalVacant(buffers, Completions);
    }
  }

  lemma PublishInv(b: Broker, input: PublishInput)
    requires Inv(b)
    ensures Inv(Publish(b, input).0)
  {
    var b' := Publish(b, input).0;
    if Publish(b, input).1 {
      TotalUpdates(b.slots, input.frame.index, b'.slots[input.frame.index]);
      assert forall j :: 0 <= j < |b.completions| ==> CompletionOk(b, b.completions[j]);
    }
  }

  // An accepted frame has exactly the leases it asked for, and moves nobody else's.
  lemma PublishGrants(b: Broker, input: PublishInput)
    requires Publish(b, input).1
    ensures forall key, c :: Releasable(Publish(b, input).0, key, c) <==>
              Releasable(b, key, c) || (key == KeyOf(input.frame) && input.consumers.Has(c))
  {
  }

  // The release of a lease that is still out always succeeds: it never finds the
  // completion ring full.
  lemma GrantedInv(b: Broker, key: Key, c: Consumer)
    requires Inv(b) && Releasable(b, key, c)
    ensures Inv(ReleaseLease(b, key, c).0) && ReleaseLease(b, key, c).1
  {
    var b' := ReleaseLease(b, key, c).0;
    var i := key.index;
    assert SlotOk(b.slots[i], i);
    assert b.slots[i].remaining > 0;
    CompletionsBelowSlots(b.slots, i);
    TotalUpdates(b.slots, i, b'.slots[i]);
    assert SlotOk(b'.slots[i], i);
    forall j | 0 <= j < |b.completions| ensures b.completions[j].key.index != i {
      assert CompletionOk(b, b.completions[j]);
    }
    forall j | 0 <= j < |b'.completions| ensures CompletionOk(b', b'.completions[j]) {
      if j < |b.completions| {
        assert CompletionOk(b, b.completions[j]);
      }
    }
  }

  lemma ReleaseInv(b: Broker, key: Key, c: Consumer)
    requires Inv(b)
    ensures Inv(ReleaseLease(b, key, c).0)
    ensures ReleaseLease(b, key, c).1 <==> Releasable(b, key, c)
  {
    if Releasable(b, key, c) {
      GrantedInv(b, key, c);
    } else {
      assert forall j :: 0 <= j < |b.completions| ==> CompletionOk(b, b.completions[j]);
    }
  }

  // A release takes away that lease and no other.
  lemma ReleaseTakes(b: Broker, key: Key, c: Consumer)
    requires Inv(b) && Releasable(b, key, c)
    ensures forall key', c' :: Releasable(ReleaseLease(b, key, c).0, key', c') <==>
              Releasable(b, key', c') && !(key' == key && c' == c)
  {
  }

  lemma PopInv(b: Broker)
    requires Inv(b)
    ensures Inv(PopRequeue(b).0)
  {
    if b.completions != [] {
      var b' := PopRequeue(b).0;
      var i := b.completions[0].key.index;
      assert CompletionOk(b, b.completions[0]);
      assert SlotOk(b.slots[i], i);
      TotalUpdates(b.slots, i, Vacant);
      forall j | 0 <= j < |b'.completions| ensures CompletionOk(b', b'.completions[j]) {
        assert b'.completions[j] == b.completions[j + 1];
        assert CompletionOk(b, b.completions[j + 1]);
      }
      forall k | 0 <= k < |b'.slots| && b'.slots[k].Occupied? && b'.slots[k].completionQueued
        ensures RequestOf(b'.slots[k].frame) in b'.completions
      {
        assert RequestOf(b.slots[k].frame) in b.completions && k != i;
        assert SlotOk(b.slots[k], k);
        assert b.completions == [b.completions[0]] + b.completions[1..];
      }
    }
  }

  // A popped buffer had given back every lease, and its slot is free again.
  lemma PopFrees(b: Broker)
    requires Inv(b) && b.completions != []
    ensures PopRequeue(b).1.Some?
    ensures var r := PopRequeue(b).1.value;
            && CompletionOk(b, r)
            && b.slots[r.key.index].remaining == 0
            && PopRequeue(b).0.slots == b.slots[r.key.index := Vacant]
            && PopRequeue(b).0.stats.outstandingFrames == b.stats.outstandingFrames - 1
    ensures forall key, c :: Releasable(PopRequeue(b).0, key, c) <==> Releasable(b, key, c)
  {
    assert CompletionOk(b, b.completions[0]);
    var i := b.completions[0].key.index;
    assert SlotOk(b.slots[i], i);
  }

  lemma PublishHolds(b: Broker, input: PublishInput)
    ensures Publish(b, input).1 ==> !Holds(b, KeyOf(input.frame))
    ensures forall key :: Holds(Publish(b, input).0, key) <==>
              Holds(b, key) || (Publish(b, input).1 && key == KeyOf(input.frame))
  {
  }

  lemma ReleaseKeeps(b: Broker, key: Key, c: Consumer)
    ensures forall key' :: Holds(ReleaseLease(b, key, c).0, key') <==> Holds(b, key')
  {
  }

  lemma PopHolds(b: Broker)
    requires Inv(b) && b.completions != []
    ensures Holds(b, PopRequeue(b).1.value.key)
    ensures forall key :: Holds(PopRequeue(b).0, key) <==> Holds(b, key) && key != PopRequeue(b).1.value.key
  {
    PopFrees(b);
  }

  // While a frame is out and no completion is listed, some lease is still out.
  lemma SomeLeaseIsOut(b: Broker) returns (key: Key, c: Consumer)
    requires Inv(b) && b.completions == [] && b.stats.outstandingFrames != 0
    ensures Releasable(b, key, c)
  {
    NoFramesNoSlots(b.slots);
    var i :| 0 <= i < |b.slots| && !b.slots[i].Vacant?;
    assert SlotOk(b.slots[i], i);
    key := KeyOf(b.slots[i].frame);
    c := if Releasable(b, key, VideoEncoder) then VideoEncoder else Inference;
  }

  // ----- runs -----

  datatype Op =
    | PublishOp(input: PublishInput)
    | ReleaseOp(key: Key, consumer: Consumer)
    | PopOp
    | CloseOp

  // The broker together with the history of frames accepted and requests handed out.
  datatype History = History(broker: Broker, acceptedKeys: multiset<Key>, poppedKeys: multiset<Key>)

  function Execute(h: History, op: Op): History {
    match op
    case PublishOp(input) =>
      var (b, ok) := Publish(h.broker, input);
      h.(broker := b,
         acceptedKeys := if ok then h.acceptedKeys + multiset{KeyOf(input.frame)} else h.acceptedKeys)
    case ReleaseOp(key, c) => h.(broker := ReleaseLease(h.broker, key, c).0)
    case PopOp =>
      var (b, r) := PopRequeue(h.broker);
      h.(broker := b,
         poppedKeys := if r.Some? then h.poppedKeys + multiset{r.value.key} else h.poppedKeys)
    case CloseOp => h.(broker := Close(h.broker))
  }

  function Run(h: History, ops: seq<Op>): History
    decreases |ops|
  {
    if ops == [] then h else Run(Execute(h, ops[0]), ops[1..])
  }

  ghost predicate Counted(h: History) {
    forall key :: h.acceptedKeys[key] == h.poppedKeys[key] + if Holds(h.broker, key) then 1 else 0
  }

  lemma PublishCounts(h: History, input: PublishInput)
    requires Counted(h)
    ensures Counted(Execute(h, PublishOp(input)))
  {
    PublishHolds(h.broker, input);
  }

  lemma PopCounts(h: History)
    requires Counted(h) && Inv(h.broker)
    ensures Counted(Execute(h, PopOp))
  {
    if h.broker.completions != [] {
      PopHolds(h.broker);
    }
  }

  ghost predicate Accounted(h: History) {
    Inv(h.broker) && Counted(h)
  }

  lemma ExecuteAccounts(h: History, op: Op)
    requires Accounted(h)
    ensures Accounted(Execute(h, op))
  {
    match op
    case PublishOp(input) => PublishInv(h.broker, input); PublishCounts(h, input);
    case ReleaseOp(key, c) => ReleaseInv(h.broker, key, c); ReleaseKeeps(h.broker, key, c);
    case PopOp => PopInv(h.broker); PopCounts(h);
    case CloseOp =>
  }

  // Every accepted frame is either still in its slot or was handed out for
  // requeueing, counted with multiplicity, after any sequence of operations:
  // none is lost and none is requeued twice.
  lemma {:induction false} EveryFrameIsAccounted(h: History, ops: seq<Op>)
    requires Accounted(h)
    ensures Accounted(Run(h, ops))
    decreases |ops|
  {
    if ops != [] {
      ExecuteAccounts(h, ops[0]);
      EveryFrameIsAccounted(Execute(h, ops[0]), ops[1..]);
    }
  }

  // From a new broker: hence a frame is handed out at most as often as it was accepted.
  lemma RequeuedAtMostOnce(buffers: nat, ops: seq<Op>, key: Key)
    ensures var h := Run(History(Fresh(buffers), multiset{}, multiset{}), ops);
            h.poppedKeys[key] <= h.acceptedKeys[key]
  {
    var h := History(Fresh(buffers), multiset{}, multiset{});
    FreshInv(buffers);
    EveryFrameIsAccounted(h, ops);
  }

  // A wait that ends without a request has met a closed, empty broker.
  lemma WaitEndsOnlyWhenEmpty(b: Broker)
    requires Inv(b) && CanWaitPop(b)
    ensures PopRequeue(b).1.None? <==>
              b.closed && b.completions == [] && forall i :: 0 <= i < |b.slots| ==> b.slots[i].Vacant?
  {
    NoFramesNoSlots(b.slots);
    if b.completions != [] {
      assert CompletionOk(b, b.completions[0]);
    }
  }
}
