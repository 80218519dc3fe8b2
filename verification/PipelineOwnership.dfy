/**
 Who owns each driver buffer and each lease, in every reachable state of the
 pipeline.
 */
module PipelineOwnership {
  import opened Wrappers
  import opened CaptureBuffers
  import opened V4l2Cameras
  import opened Pipelines
  import opened PipelineFrames

  // ----- shapes that no step changes -----

  ghost predicate QueueOk<T>(q: Queue<T>, capacity: nat) {
    q.capacity == capacity && |q.items| <= capacity
  }

  ghost predicate QueuesOk(c: Config, s: State) {
    && QueueOk(s.captured, c.capturedCapacity)
    && QueueOk(s.videoFrames, c.videoCapacity)
    && QueueOk(s.encoded, c.encodedCapacity)
    && QueueOk(s.prepared, c.preparedCapacity)
    && QueueOk(s.completed, c.completedCapacity)
    && QueueOk(s.freeIn, c.inputs)
    && QueueOk(s.freeOut, c.outputs)
  }

  ghost predicate ResourcesOk(c: Config, camera: Camera, broker: Broker) {
    && |camera.buffers| == |broker.slots| == c.buffers
    && camera.streaming
    && OutCounted(camera)
    && Inv(broker)
  }

  // ----- driver buffers -----

  datatype Hand = Nothing | Raw(index: nat) | Keyed(key: Key)

  // The buffer the capture thread holds: dequeued and not yet published, or
  // popped from the broker and not yet queued again.
  function CaptureHand(pc: CapturePc): Hand {
    match pc
    case CRaw(i) => Raw(i)
    case CPublish(f) => Keyed(KeyOf(f))
    case CDirect(f) => Keyed(KeyOf(f))
    case CRequeue(r, _) => Keyed(r.key)
    case CRequeueLast(r) => Keyed(r.key)
    case CRequeueWaited(r) => Keyed(r.key)
    case _ => Nothing
  }

  function HandIndex(h: Hand): int {
    match h
    case Nothing => -1
    case Raw(i) => i
    case Keyed(key) => key.index
  }

  // Each buffer is in exactly one place, and while the driver does not own it
  // the camera remembers the key of its frame.
  ghost predicate BufferOk(v: CaptureView, i: nat)
    requires i < |v.camera.buffers| && i < |v.broker.slots|
  {
    var hand := CaptureHand(v.cap);
    if HandIndex(hand) == i then
      && v.broker.slots[i].Vacant?
      && v.camera.buffers[i] == Buffer(Dequeued, if hand.Keyed? then Some(hand.key) else None)
    else if v.broker.slots[i].Occupied? then
      v.camera.buffers[i] == Buffer(Dequeued, Some(KeyOf(v.broker.slots[i].frame)))
    else
      v.camera.buffers[i] == Buffer(Queued, None)
  }

  predicate Identified(r: Request) {
    r.identity.session == r.key.session && r.identity.frame == r.key.frame
  }

  // The request in the capture thread's hand carries the identity of its key; no
  // requeue is refused, so SignalFailure is entered only where the loop ends.
  predicate RequestOk(pc: CapturePc) {
    match pc
    case CRequeue(r, _) => Identified(r)
    case CRequeueLast(r) => Identified(r)
    case CRequeueWaited(r) => Identified(r)
    case CFail(_, after) => after == ThenClose
    case _ => true
  }

  ghost predicate BuffersOk(c: Config, v: CaptureView) {
    && ResourcesOk(c, v.camera, v.broker)
    && RequestOk(v.cap)
    && HandIndex(CaptureHand(v.cap)) < c.buffers
    && forall i :: 0 <= i < c.buffers ==> BufferOk(v, i)
  }

  // ----- leases -----

  // Where the leases of one consumer can be.
  datatype Places = Places(queue: seq<Key>, capture: Option<Key>, worker: Option<Key>)

  function CaptureInference(pc: CapturePc): Option<Key> {
    match pc
    case CPushInference(key) => Some(key)
    case CAbort(key, inference, _, _) => if inference then Some(key) else None
    case CEvictInference(_, evicted) => Some(evicted)
    case _ => None
  }

  function CaptureVideo(c: Config, pc: CapturePc): Option<Key> {
    match pc
    case CPushInference(key) => if c.video then Some(key) else None
    case CAbort(key, _, video, _) => if video then Some(key) else None
    case CEvictInference(key, _) => if c.video then Some(key) else None
    case CPushVideo(key) => Some(key)
    case CEvictVideo(evicted) => Some(evicted)
    case _ => None
  }

  function PreprocessHand(pc: PreprocessPc): Option<Key> {
    match pc
    case PWork(_, key) => Some(key)
    case PRelease(_, key, _) => Some(key)
    case PThrow(key) => Some(key)
    case PDrainRelease(key) => Some(key)
    case _ => None
  }

  function VideoHand(pc: VideoPc): Option<Key> {
    match pc
    case VWork(key) => Some(key)
    case VRelease(key, _, _) => Some(key)
    case VDrainRelease(key) => Some(key)
    case _ => None
  }

  function InferencePlaces(v: CaptureView, worker: Option<Key>): Places {
    Places(v.captured.items, CaptureInference(v.cap), worker)
  }

  function VideoPlaces(c: Config, v: CaptureView, worker: Option<Key>): Places {
    Places(v.videoFrames.items, CaptureVideo(c, v.cap), worker)
  }

  function IsHere(place: Option<Key>, key: Key): nat {
    if place == Some(key) then 1 else 0
  }

  function Copies(p: Places, key: Key): nat {
    multiset(p.queue)[key] + IsHere(p.capture, key) + IsHere(p.worker, key)
  }

  // Each unreleased lease has exactly one holder, and nobody holds a stale one.
  ghost predicate Tracked(b: Broker, consumer: Consumer, p: Places) {
    forall key :: Copies(p, key) == if Releasable(b, key, consumer) then 1 else 0
  }

  // `pre` and `vid` are the leases in the hands of the two workers.
  ghost predicate LeasesOk(c: Config, v: CaptureView, pre: Option<Key>, vid: Option<Key>) {
    && Tracked(v.broker, Inference, InferencePlaces(v, pre))
    && Tracked(v.broker, VideoEncoder, VideoPlaces(c, v, vid))
  }

  ghost predicate OwnershipOk(c: Config, s: State) {
    && ConfigOk(c) && QueuesOk(c, s)
    && BuffersOk(c, CaptureOf(s))
    && LeasesOk(c, CaptureOf(s), PreprocessHand(s.pre), VideoHand(s.vid))
  }

  lemma NextKeepsQueues(c: Config, s: State, t: Thread, e: Env)
    requires ConfigOk(c) && QueuesOk(c, s)
    ensures QueuesOk(c, Next(c, s, t, e))
  {
    NextEvolves(c, s, t, e);
  }

  // ----- buffers -----

  // A broker step that takes no frame out of its slot and puts none in.
  ghost predicate SameFrames(b: Broker, b': Broker) {
    && |b'.slots| == |b.slots|
    && forall i :: 0 <= i < |b.slots| ==>
         && b'.slots[i].Occupied? == b.slots[i].Occupied?
         && (b.slots[i].Occupied? ==> b'.slots[i].frame == b.slots[i].frame)
  }

  lemma ReleaseKeepsFrames(b: Broker, key: Key, consumer: Consumer)
    requires Inv(b)
    ensures Inv(ReleaseLease(b, key, consumer).0) && SameFrames(b, ReleaseLease(b, key, consumer).0)
  {
    ReleaseInv(b, key, consumer);
  }

  lemma SameKeepsBuffers(c: Config, v: CaptureView, v': CaptureView)
    requires BuffersOk(c, v)
    requires v'.camera == v.camera && SameFrames(v.broker, v'.broker) && Inv(v'.broker)
    requires CaptureHand(v'.cap) == CaptureHand(v.cap) && RequestOk(v'.cap)
    ensures BuffersOk(c, v')
  {
    forall i | 0 <= i < c.buffers ensures BufferOk(v', i) {
      assert BufferOk(v, i);
    }
  }

  lemma ReleaseKeepsBuffers(c: Config, v: CaptureView, key: Key, consumer: Consumer, cap: CapturePc)
    requires BuffersOk(c, v) && CaptureHand(v.cap) == CaptureHand(cap) && RequestOk(cap)
    ensures BuffersOk(c, ReleaseStep(v, key, consumer, cap))
  {
    ReleaseKeepsFrames(v.broker, key, consumer);
    SameKeepsBuffers(c, v, ReleaseStep(v, key, consumer, cap));
  }

  lemma DrainKeepsBuffers(c: Config, v: CaptureView, drain: Drain)
    requires BuffersOk(c, v) && CaptureHand(v.cap) == Nothing
    ensures BuffersOk(c, DrainStep(v, drain))
  {
    var v' := DrainStep(v, drain);
    if v.broker.completions != [] {
      PopInv(v.broker);
      PopFrees(v.broker);
    }
    forall i | 0 <= i < c.buffers ensures BufferOk(v', i) {
      assert BufferOk(v, i);
    }
  }

  // The camera accepts every request the capture thread brings.
  lemma HandIsAccepted(c: Config, v: CaptureView, r: Request)
    requires BuffersOk(c, v) && CaptureHand(v.cap) == Keyed(r.key) && Identified(r)
    ensures Accepts(v.camera, r)
  {
    assert BufferOk(v, r.key.index);
  }

  lemma RequeueKeepsBuffers(c: Config, v: CaptureView, r: Request, accepted: CapturePc, refused: CapturePc)
    requires BuffersOk(c, v) && CaptureHand(v.cap) == Keyed(r.key) && Identified(r)
    requires CaptureHand(accepted) == Nothing && RequestOk(accepted)
    ensures BuffersOk(c, RequeueStep(v, r, accepted, refused))
  {
    var v' := RequeueStep(v, r, accepted, refused);
    HandIsAccepted(c, v, r);
    StepsCounted(v.camera, r, Frame(r.identity, 0, 0, 0, []), 0, true);
    forall i | 0 <= i < c.buffers ensures BufferOk(v', i) {
      assert BufferOk(v, i);
    }
  }

  lemma PollKeepsBuffers(c: Config, v: CaptureView, cameraStop: bool, poll: PollResult)
    requires BuffersOk(c, v) && v.cap == CPoll
    ensures BuffersOk(c, PollStep(v, cameraStop, poll))
  {
    var v' := PollStep(v, cameraStop, poll);
    if poll.Delivered? {
      var r := Request(Key(0, 0, 0), Identity(0, 0, 0, 0));
      StepsCounted(v.camera, r, Frame(r.identity, 0, 0, 0, []), poll.index, true);
    }
    forall i | 0 <= i < c.buffers ensures BufferOk(v', i) {
      assert BufferOk(v, i);
    }
  }

  // What RawStep does to the camera: the buffer goes back, or gets its key.
  lemma RawCamera(c: Config, v: CaptureView, i: nat, view: ViewResult)
    requires BuffersOk(c, v) && v.cap == CRaw(i)
    ensures var v' := RawStep(v, i, view);
      && v' == v.(camera := v'.camera, cap := v'.cap)
      && OutCounted(v'.camera) && v'.camera.streaming
      && RequestOk(v'.cap)
      && (|| (CaptureHand(v'.cap) == Nothing && v'.camera.buffers == v.camera.buffers[i := Buffer(Queued, None)])
          || (exists key :: CaptureHand(v'.cap) == Keyed(key) && key.index == i
                && v'.camera.buffers == v.camera.buffers[i := Buffer(Dequeued, Some(key))]))
  {
    assert BufferOk(v, i);
    var r := Request(Key(0, 0, 0), Identity(0, 0, 0, 0));
    StepsCounted(v.camera, r, if view.Viewed? then view.view else Frame(r.identity, 0, 0, 0, []), i, true);
    if view.Viewed? {
      assert CaptureHand(RawStep(v, i, view).cap) == Keyed(KeyOf(Stamp(v.camera, view.view, i)));
    }
  }

  lemma RawKeepsBuffers(c: Config, v: CaptureView, i: nat, view: ViewResult)
    requires BuffersOk(c, v) && v.cap == CRaw(i)
    ensures BuffersOk(c, RawStep(v, i, view))
  {
    RawCamera(c, v, i, view);
    var v' := RawStep(v, i, view);
    forall j | 0 <= j < c.buffers ensures BufferOk(v', j) {
      assert BufferOk(v, j);
    }
  }

  lemma PublishKeepsBuffers(c: Config, v: CaptureView, f: Frame, wellFormed: bool)
    requires BuffersOk(c, v) && v.cap == CPublish(f)
    ensures BuffersOk(c, PublishStep(c, v, f, wellFormed))
  {
    var v' := PublishStep(c, v, f, wellFormed);
    PublishInv(v.broker, PublishInput(f, Consumers(c.video, true), wellFormed));
    forall i | 0 <= i < c.buffers ensures BufferOk(v', i) {
      assert BufferOk(v, i);
    }
  }

  // The steps of the capture thread that touch neither the camera nor a slot.
  predicate Idle(pc: CapturePc) {
    pc.CCheck? || pc.CDirectDone? || pc.CPushInference? || pc.CPushVideo? || pc.CFail? || pc.CClose? || pc.CDone?
  }

  lemma IdleKeepsBuffers(c: Config, v: CaptureView, stop: bool, cameraStop: bool, e: Env)
    requires 0 < v.captured.capacity && 0 < v.videoFrames.capacity && BuffersOk(c, v) && Idle(v.cap)
    ensures BuffersOk(c, CaptureStep(c, v, stop, cameraStop, e))
  {
    SameKeepsBuffers(c, v, CaptureStep(c, v, stop, cameraStop, e));
  }

  lemma CaptureKeepsBuffers(c: Config, v: CaptureView, stop: bool, cameraStop: bool, e: Env)
    requires 0 < v.captured.capacity && 0 < v.videoFrames.capacity && BuffersOk(c, v)
    ensures BuffersOk(c, CaptureStep(c, v, stop, cameraStop, e))
  {
    match v.cap {
    case CDrain(wake) => DrainKeepsBuffers(c, v, InLoop(wake));
    case CDrainLast => DrainKeepsBuffers(c, v, Last);
    case CWait => DrainKeepsBuffers(c, v, Waiting);
    case CRequeue(r, wake) =>
      RequeueKeepsBuffers(c, v, r, CDrain(wake), CFail(0, if wake then ThenCheck else ThenPoll));
    case CRequeueLast(r) => RequeueKeepsBuffers(c, v, r, CDrainLast, CFail(0, ThenWait));
    case CRequeueWaited(r) => RequeueKeepsBuffers(c, v, r, CWait, CWait);
    case CDirect(f) => RequeueKeepsBuffers(c, v, RequestOf(f), CDirectDone, CDirectDone);
    case CPoll => PollKeepsBuffers(c, v, cameraStop, e.poll);
    case CRaw(i) => RawKeepsBuffers(c, v, i, e.view);
    case CPublish(f) => PublishKeepsBuffers(c, v, f, e.wellFormed);
    case CAbort(key, inference, video, thrown) =>
      if inference {
        ReleaseKeepsBuffers(c, v, key, Inference, CAbort(key, false, video, thrown));
      } else if video {
        ReleaseKeepsBuffers(c, v, key, VideoEncoder, CAbort(key, false, false, thrown));
      } else {
        SameKeepsBuffers(c, v, AbortStep(v, key, inference, video, thrown));
      }
    case CEvictInference(key, evicted) => ReleaseKeepsBuffers(c, v, evicted, Inference, AfterInference(c, key));
    case CEvictVideo(evicted) => ReleaseKeepsBuffers(c, v, evicted, VideoEncoder, CCheck);
    case _ => IdleKeepsBuffers(c, v, stop, cameraStop, e);
    }
  }

  // ----- leases -----

  // The broker step took no lease and granted none.
  ghost predicate SameLeases(b: Broker, b': Broker) {
    || b' == b
    || b' == Close(b)
    || (Inv(b) && b' == PopRequeue(b).0)
  }

  lemma SameIsTracked(b: Broker, b': Broker, consumer: Consumer, p: Places)
    requires Tracked(b, consumer, p) && SameLeases(b, b')
    ensures Tracked(b', consumer, p)
  {
    if Inv(b) && b.completions != [] {
      PopFrees(b);
    }
  }

  // The lease in somebody's hand can be released, and then nobody has it.
  lemma ReleaseIsTracked(b: Broker, key: Key, consumer: Consumer, p: Places, p': Places)
    requires Inv(b) && Tracked(b, consumer, p)
    requires || (p.capture == Some(key) && p' == p.(capture := None))
             || (p.worker == Some(key) && p' == p.(worker := None))
    ensures Releasable(b, key, consumer)
    ensures Tracked(ReleaseLease(b, key, consumer).0, consumer, p')
  {
    assert Copies(p, key) >= 1;
    ReleaseTakes(b, key, consumer);
    forall k ensures Copies(p', k) == if Releasable(ReleaseLease(b, key, consumer).0, k, consumer) then 1 else 0 {
      assert Copies(p, k) == if Releasable(b, k, consumer) then 1 else 0;
    }
  }

  lemma ReleaseKeepsOther(b: Broker, key: Key, consumer: Consumer, other: Consumer, p: Places)
    requires Inv(b) && Tracked(b, other, p) && other != consumer
    requires Releasable(b, key, consumer)
    ensures Tracked(ReleaseLease(b, key, consumer).0, other, p)
  {
    ReleaseTakes(b, key, consumer);
  }

  lemma PublishIsTracked(b: Broker, input: PublishInput, consumer: Consumer, p: Places)
    requires Tracked(b, consumer, p) && Publish(b, input).1 && p.capture.None?
    ensures Tracked(Publish(b, input).0, consumer,
                    if input.consumers.Has(consumer) then p.(capture := Some(KeyOf(input.frame))) else p)
  {
    PublishGrants(b, input);
    PublishHolds(b, input);
    var p' := if input.consumers.Has(consumer) then p.(capture := Some(KeyOf(input.frame))) else p;
    forall k ensures Copies(p', k) == if Releasable(Publish(b, input).0, k, consumer) then 1 else 0 {
      assert Copies(p, k) == if Releasable(b, k, consumer) then 1 else 0;
    }
  }

  lemma RefusalIsTracked(b: Broker, input: PublishInput, consumer: Consumer, p: Places)
    requires Tracked(b, consumer, p) && !Publish(b, input).1
    ensures Tracked(Publish(b, input).0, consumer, p)
  {
    forall k ensures Releasable(Publish(b, input).0, k, consumer) <==> Releasable(b, k, consumer) {
    }
  }

  // PushLatest moves the capture thread's lease into the queue and, when the
  // queue was full, the oldest one into its hand.
  lemma PushIsTracked(b: Broker, consumer: Consumer, p: Places, p': Places)
    requires Tracked(b, consumer, p) && p.capture.Some? && p'.worker == p.worker
    requires || (p'.queue == p.queue + [p.capture.value] && p'.capture == None)
             || (p.queue != [] && p'.queue == p.queue[1..] + [p.capture.value]
                 && p'.capture == Some(p.queue[0]))
    ensures Tracked(b, consumer, p')
  {
    if p.queue != [] {
      assert p.queue == [p.queue[0]] + p.queue[1..];
    }
    forall k ensures Copies(p', k) == Copies(p, k) {
    }
  }

  lemma PopIsTracked(b: Broker, consumer: Consumer, p: Places)
    requires Tracked(b, consumer, p) && p.queue != [] && p.worker == None
    ensures Tracked(b, consumer, p.(queue := p.queue[1..], worker := Some(p.queue[0])))
  {
    assert p.queue == [p.queue[0]] + p.queue[1..];
    forall k ensures Copies(p.(queue := p.queue[1..], worker := Some(p.queue[0])), k) == Copies(p, k) {
    }
  }

  lemma SameKeepsLeases(c: Config, v: CaptureView, v': CaptureView, pre: Option<Key>, vid: Option<Key>)
    requires LeasesOk(c, v, pre, vid) && SameLeases(v.broker, v'.broker)
    requires InferencePlaces(v', pre) == InferencePlaces(v, pre) && VideoPlaces(c, v', vid) == VideoPlaces(c, v, vid)
    ensures LeasesOk(c, v', pre, vid)
  {
    SameIsTracked(v.broker, v'.broker, Inference, InferencePlaces(v, pre));
    SameIsTracked(v.broker, v'.broker, VideoEncoder, VideoPlaces(c, v, vid));
  }

  // The capture thread releases a lease in its hand and holds the other as before.
  lemma ReleaseKeepsLeases(c: Config, v: CaptureView, key: Key, consumer: Consumer, cap: CapturePc,
                           pre: Option<Key>, vid: Option<Key>)
    requires LeasesOk(c, v, pre, vid) && Inv(v.broker)
    requires CaptureInference(v.cap) == if consumer.Inference? then Some(key) else CaptureInference(cap)
    requires CaptureVideo(c, v.cap) == if consumer.VideoEncoder? then Some(key) else CaptureVideo(c, cap)
    requires if consumer.Inference? then CaptureInference(cap) == None else CaptureVideo(c, cap) == None
    ensures LeasesOk(c, ReleaseStep(v, key, consumer, cap), pre, vid)
  {
    var v' := ReleaseStep(v, key, consumer, cap);
    if consumer.Inference? {
      ReleaseIsTracked(v.broker, key, Inference, InferencePlaces(v, pre), InferencePlaces(v', pre));
      ReleaseKeepsOther(v.broker, key, Inference, VideoEncoder, VideoPlaces(c, v, vid));
    } else {
      ReleaseIsTracked(v.broker, key, VideoEncoder, VideoPlaces(c, v, vid), VideoPlaces(c, v', vid));
      ReleaseKeepsOther(v.broker, key, VideoEncoder, Inference, InferencePlaces(v, pre));
    }
  }

  lemma PublishKeepsLeases(c: Config, v: CaptureView, f: Frame, wellFormed: bool, pre: Option<Key>, vid: Option<Key>)
    requires LeasesOk(c, v, pre, vid) && v.cap == CPublish(f)
    ensures LeasesOk(c, PublishStep(c, v, f, wellFormed), pre, vid)
  {
    var input := PublishInput(f, Consumers(c.video, true), wellFormed);
    if Publish(v.broker, input).1 {
      PublishIsTracked(v.broker, input, Inference, InferencePlaces(v, pre));
      PublishIsTracked(v.broker, input, VideoEncoder, VideoPlaces(c, v, vid));
    } else {
      RefusalIsTracked(v.broker, input, Inference, InferencePlaces(v, pre));
      RefusalIsTracked(v.broker, input, VideoEncoder, VideoPlaces(c, v, vid));
    }
  }

  // A push hands the lease of the capture thread to the queue, and may take the
  // evicted one in exchange.
  lemma PushInferenceKeepsLeases(c: Config, v: CaptureView, key: Key, throws: bool,
                                 pre: Option<Key>, vid: Option<Key>)
    requires 0 < v.captured.capacity && LeasesOk(c, v, pre, vid) && v.cap == CPushInference(key)
    ensures LeasesOk(c, PushInferenceStep(c, v, key, throws), pre, vid)
  {
    var v' := PushInferenceStep(c, v, key, throws);
    if throws || v.captured.stopped {
      SameKeepsLeases(c, v, v', pre, vid);
    } else {
      PushIsTracked(v.broker, Inference, InferencePlaces(v, pre), InferencePlaces(v', pre));
    }
  }

  lemma PushVideoKeepsLeases(c: Config, v: CaptureView, key: Key, pre: Option<Key>, vid: Option<Key>)
    requires 0 < v.videoFrames.capacity && LeasesOk(c, v, pre, vid) && v.cap == CPushVideo(key)
    ensures LeasesOk(c, PushVideoStep(v, key), pre, vid)
  {
    var v' := PushVideoStep(v, key);
    if v.videoFrames.stopped {
      SameKeepsLeases(c, v, v', pre, vid);
    } else {
      PushIsTracked(v.broker, VideoEncoder, VideoPlaces(c, v, vid), VideoPlaces(c, v', vid));
    }
  }

  lemma PollKeepsLeases(c: Config, v: CaptureView, cameraStop: bool, poll: PollResult,
                        pre: Option<Key>, vid: Option<Key>)
    requires LeasesOk(c, v, pre, vid) && v.cap == CPoll
    ensures LeasesOk(c, PollStep(v, cameraStop, poll), pre, vid)
  {
    SameKeepsLeases(c, v, PollStep(v, cameraStop, poll), pre, vid);
  }

  lemma RawKeepsLeases(c: Config, v: CaptureView, i: nat, view: ViewResult, pre: Option<Key>, vid: Option<Key>)
    requires LeasesOk(c, v, pre, vid) && v.cap == CRaw(i)
    ensures LeasesOk(c, RawStep(v, i, view), pre, vid)
  {
    SameKeepsLeases(c, v, RawStep(v, i, view), pre, vid);
  }

  lemma AbortKeepsLeases(c: Config, v: CaptureView, key: Key, inference: bool, video: bool, thrown: bool,
                         pre: Option<Key>, vid: Option<Key>)
    requires Inv(v.broker) && LeasesOk(c, v, pre, vid) && v.cap == CAbort(key, inference, video, thrown)
    ensures LeasesOk(c, AbortStep(v, key, inference, video, thrown), pre, vid)
  {
    if inference {
      ReleaseKeepsLeases(c, v, key, Inference, CAbort(key, false, video, thrown), pre, vid);
    } else if video {
      ReleaseKeepsLeases(c, v, key, VideoEncoder, CAbort(key, false, false, thrown), pre, vid);
    } else {
      SameKeepsLeases(c, v, AbortStep(v, key, inference, video, thrown), pre, vid);
    }
  }

  lemma DrainKeepsLeases(c: Config, v: CaptureView, drain: Drain, pre: Option<Key>, vid: Option<Key>)
    requires Inv(v.broker) && LeasesOk(c, v, pre, vid) && (v.cap.CDrain? || v.cap.CDrainLast? || v.cap.CWait?)
    ensures LeasesOk(c, DrainStep(v, drain), pre, vid)
  {
    SameKeepsLeases(c, v, DrainStep(v, drain), pre, vid);
  }

  // The other capture steps move no lease.
  lemma QuietKeepsLeases(c: Config, v: CaptureView, stop: bool, cameraStop: bool, e: Env,
                         pre: Option<Key>, vid: Option<Key>)
    requires 0 < v.captured.capacity && 0 < v.videoFrames.capacity && LeasesOk(c, v, pre, vid)
    requires || v.cap.CCheck? || v.cap.CDirect? || v.cap.CDirectDone? || v.cap.CRequeue? || v.cap.CRequeueLast?
             || v.cap.CRequeueWaited? || v.cap.CClose? || v.cap.CFail? || v.cap.CDone?
    ensures LeasesOk(c, CaptureStep(c, v, stop, cameraStop, e), pre, vid)
  {
    SameKeepsLeases(c, v, CaptureStep(c, v, stop, cameraStop, e), pre, vid);
  }

  lemma CaptureKeepsLeases(c: Config, v: CaptureView, stop: bool, cameraStop: bool, e: Env,
                           pre: Option<Key>, vid: Option<Key>)
    requires 0 < v.captured.capacity && 0 < v.videoFrames.capacity && Inv(v.broker)
    requires LeasesOk(c, v, pre, vid)
    ensures LeasesOk(c, CaptureStep(c, v, stop, cameraStop, e), pre, vid)
  {
    match v.cap {
    case CDrain(wake) => DrainKeepsLeases(c, v, InLoop(wake), pre, vid);
    case CDrainLast => DrainKeepsLeases(c, v, Last, pre, vid);
    case CWait => DrainKeepsLeases(c, v, Waiting, pre, vid);
    case CPoll => PollKeepsLeases(c, v, cameraStop, e.poll, pre, vid);
    case CRaw(i) => RawKeepsLeases(c, v, i, e.view, pre, vid);
    case CPublish(f) => PublishKeepsLeases(c, v, f, e.wellFormed, pre, vid);
    case CPushInference(key) => PushInferenceKeepsLeases(c, v, key, e.work == Throws, pre, vid);
    case CPushVideo(key) => PushVideoKeepsLeases(c, v, key, pre, vid);
    case CAbort(key, inference, video, thrown) => AbortKeepsLeases(c, v, key, inference, video, thrown, pre, vid);
    case CEvictInference(key, evicted) =>
      ReleaseKeepsLeases(c, v, evicted, Inference, AfterInference(c, key), pre, vid);
    case CEvictVideo(evicted) => ReleaseKeepsLeases(c, v, evicted, VideoEncoder, CCheck, pre, vid);
    case _ => QuietKeepsLeases(c, v, stop, cameraStop, e, pre, vid);
    }
  }

  // ----- the two workers -----

  // A worker's step releases the lease in its hand, or leaves the broker alone.
  ghost predicate Releases(b: Broker, b': Broker, consumer: Consumer) {
    b' == b || exists key :: Releasable(b, key, consumer) && b' == ReleaseLease(b, key, consumer).0
  }

  // `capture` is the lease in the hand of the capture thread.
  lemma PreprocessKeepsLeases(v: PreprocessView, fatal: bool, e: Env, capture: Option<Key>)
    requires Inv(v.broker)
    requires Tracked(v.broker, Inference, Places(v.captured.items, capture, PreprocessHand(v.pre)))
    ensures var v' := PreprocessStep(v, fatal, e);
      && Tracked(v'.broker, Inference, Places(v'.captured.items, capture, PreprocessHand(v'.pre)))
      && Releases(v.broker, v'.broker, Inference)
  {
    var v' := PreprocessStep(v, fatal, e);
    var p, p' := Places(v.captured.items, capture, PreprocessHand(v.pre)),
                 Places(v'.captured.items, capture, PreprocessHand(v'.pre));
    if v.pre.PRelease? || v.pre.PThrow? || v.pre.PDrainRelease? {
      ReleaseIsTracked(v.broker, v.pre.key, Inference, p, p');
    } else if p' != p {
      PopIsTracked(v.broker, Inference, p);
    }
  }

  lemma VideoKeepsLeases(v: VideoView, fatal: bool, e: Env, capture: Option<Key>)
    requires Inv(v.broker)
    requires Tracked(v.broker, VideoEncoder, Places(v.videoFrames.items, capture, VideoHand(v.vid)))
    ensures var v' := VideoStep(v, fatal, e);
      && Tracked(v'.broker, VideoEncoder, Places(v'.videoFrames.items, capture, VideoHand(v'.vid)))
      && Releases(v.broker, v'.broker, VideoEncoder)
  {
    var v' := VideoStep(v, fatal, e);
    var p, p' := Places(v.videoFrames.items, capture, VideoHand(v.vid)),
                 Places(v'.videoFrames.items, capture, VideoHand(v'.vid));
    if v.vid.VRelease? || v.vid.VDrainRelease? {
      ReleaseIsTracked(v.broker, v.vid.key, VideoEncoder, p, p');
    } else if (v.vid.VPop? || v.vid.VDrain?) && v.videoFrames.items != [] {
      PopIsTracked(v.broker, VideoEncoder, p);
    } else {
      assert p' == p && v'.broker == v.broker;
    }
  }

  // A worker's release leaves the buffers and the other consumer's leases alone.
  lemma ReleasesKeep(c: Config, v: CaptureView, v': CaptureView, consumer: Consumer, other: Consumer, p: Places)
    requires BuffersOk(c, v) && Tracked(v.broker, other, p) && other != consumer
    requires v'.camera == v.camera && v'.cap == v.cap && Releases(v.broker, v'.broker, consumer)
    ensures BuffersOk(c, v') && Tracked(v'.broker, other, p)
  {
    if v'.broker != v.broker {
      var key :| Releasable(v.broker, key, consumer) && v'.broker == ReleaseLease(v.broker, key, consumer).0;
      ReleaseKeepsFrames(v.broker, key, consumer);
      ReleaseKeepsOther(v.broker, key, consumer, other, p);
    }
    SameKeepsBuffers(c, v, v');
  }

  // ----- the main results -----

  lemma InitialBuffers(c: Config, session: nat, headers: nat)
    requires ConfigOk(c)
    ensures BuffersOk(c, CaptureOf(Initial(c, session, headers)))
  {
    FreshInv(c.buffers);
    StreamingCounted(c.buffers, session);
  }

  lemma InitialLeases(c: Config, session: nat, headers: nat)
    ensures LeasesOk(c, CaptureOf(Initial(c, session, headers)), None, None)
  {
  }

  lemma InitialOwnership(c: Config, session: nat, headers: nat)
    requires ConfigOk(c) && headers <= c.encodedCapacity
    ensures OwnershipOk(c, Initial(c, session, headers))
  {
    InitialBuffers(c, session, headers);
    InitialLeases(c, session, headers);
  }

  lemma CaptureViewOwned(c: Config, s: State, v': CaptureView)
    requires OwnershipOk(c, s) && QueuesOk(c, WithCapture(s, v'))
    requires BuffersOk(c, v') && LeasesOk(c, v', PreprocessHand(s.pre), VideoHand(s.vid))
    ensures OwnershipOk(c, WithCapture(s, v'))
  {
    assert CaptureOf(WithCapture(s, v')) == v';
  }

  lemma CaptureKeepsOwnership(c: Config, s: State, e: Env)
    requires OwnershipOk(c, s) && QueuesOk(c, CaptureNext(c, s, e))
    ensures OwnershipOk(c, CaptureNext(c, s, e))
  {
    CaptureKeepsBuffers(c, CaptureOf(s), s.stop, s.cameraStop, e);
    CaptureKeepsLeases(c, CaptureOf(s), s.stop, s.cameraStop, e, PreprocessHand(s.pre), VideoHand(s.vid));
    CaptureViewOwned(c, s, CaptureStep(c, CaptureOf(s), s.stop, s.cameraStop, e));
  }

  lemma PreprocessViewOwned(c: Config, s: State, v': PreprocessView)
    requires OwnershipOk(c, s) && QueuesOk(c, WithPreprocess(s, v'))
    requires Tracked(v'.broker, Inference, Places(v'.captured.items, CaptureInference(s.cap), PreprocessHand(v'.pre)))
    requires Releases(s.broker, v'.broker, Inference)
    ensures OwnershipOk(c, WithPreprocess(s, v'))
  {
    ReleasesKeep(c, CaptureOf(s), CaptureOf(WithPreprocess(s, v')), Inference, VideoEncoder,
                 VideoPlaces(c, CaptureOf(s), VideoHand(s.vid)));
  }

  lemma PreprocessKeepsOwnership(c: Config, s: State, e: Env)
    requires OwnershipOk(c, s) && QueuesOk(c, PreprocessNext(s, e))
    ensures OwnershipOk(c, PreprocessNext(s, e))
  {
    PreprocessKeepsLeases(PreprocessOf(s), s.fatal, e, CaptureInference(s.cap));
    PreprocessViewOwned(c, s, PreprocessStep(PreprocessOf(s), s.fatal, e));
  }

  lemma VideoKeepsOwnership(c: Config, s: State, e: Env)
    requires OwnershipOk(c, s) && QueuesOk(c, VideoNext(s, e))
    ensures OwnershipOk(c, VideoNext(s, e))
  {
    VideoKeepsLeases(VideoOf(s), s.fatal, e, CaptureVideo(c, s.cap));
    ReleasesKeep(c, CaptureOf(s), CaptureOf(VideoNext(s, e)), VideoEncoder, Inference,
                 InferencePlaces(CaptureOf(s), PreprocessHand(s.pre)));
  }

  // The other threads hold no lease and touch no frame.
  lemma OthersKeepOwnership(c: Config, s: State, s': State)
    requires OwnershipOk(c, s) && QueuesOk(c, s')
    requires s'.camera == s.camera && (s'.broker == s.broker || s'.broker == Close(s.broker))
    requires CaptureHand(s'.cap) == CaptureHand(s.cap) && RequestOk(s'.cap)
    requires CaptureInference(s'.cap) == CaptureInference(s.cap) && CaptureVideo(c, s'.cap) == CaptureVideo(c, s.cap)
    requires s'.captured.items == s.captured.items && s'.videoFrames.items == s.videoFrames.items
    requires PreprocessHand(s'.pre) == PreprocessHand(s.pre) && s'.vid == s.vid
    ensures OwnershipOk(c, s')
  {
    SameKeepsBuffers(c, CaptureOf(s), CaptureOf(s'));
    SameKeepsLeases(c, CaptureOf(s), CaptureOf(s'), PreprocessHand(s.pre), VideoHand(s.vid));
  }

  lemma BystanderKeepsOwnership(c: Config, s: State, t: Thread, s': State)
    requires OwnershipOk(c, s) && QueuesOk(c, s') && Evolves(t, s, s')
    requires !(t.CaptureThread? || t.PreprocessThread? || t.VideoThread?)
    ensures OwnershipOk(c, s')
  {
    OthersKeepOwnership(c, s, s');
  }

  // SignalFailure takes no frame and no lease from anybody.
  lemma FailureKeepsOwnership(c: Config, s: State, t: Thread)
    requires OwnershipOk(c, s) && InFailure(t, s) && QueuesOk(c, FailureNext(c, s, t))
    ensures OwnershipOk(c, FailureNext(c, s, t))
  {
    FailStoreEvolves(s, StoresMade(t, s));
    OthersKeepOwnership(c, s, FailureNext(c, s, t));
  }

  // Every step of every thread keeps each buffer and each lease in one place.
  lemma NextKeepsOwnership(c: Config, s: State, t: Thread, e: Env)
    requires OwnershipOk(c, s)
    ensures OwnershipOk(c, Next(c, s, t, e))
  {
    NextKeepsQueues(c, s, t, e);
    if InFailure(t, s) {
      FailureKeepsOwnership(c, s, t);
    } else {
      match t
      case CaptureThread => CaptureKeepsOwnership(c, s, e);
      case PreprocessThread => PreprocessKeepsOwnership(c, s, e);
      case VideoThread => VideoKeepsOwnership(c, s, e);
      case _ =>
        NextEvolves(c, s, t, e);
        BystanderKeepsOwnership(c, s, t, Next(c, s, t, e));
    }
  }
}
