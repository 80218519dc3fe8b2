/**
 The main results about the pipeline: what holds in every reachable state, why
 shutdown cannot get stuck, and why it ends with every buffer at the driver.
 */
module PipelineShutdown {
  import opened Wrappers
  import opened CaptureBuffers
  import opened V4l2Cameras
  import opened Pipelines
  import opened PipelineFrames
  import opened PipelineOwnership
  import opened PipelineFlags
  import opened PipelineSlots

  // ----- reachable states -----

  ghost predicate ReportOk(s: State) {
    s.main.MDone? ==> s.main.report.frames == 0 && s.main.report.leases == 0 && s.main.report.cameraOut == 0
  }

  ghost predicate Inv(c: Config, s: State) {
    OwnershipOk(c, s) && FlagsOk(c, s) && SlotsOk(c, s) && ReportOk(s)
  }

  // Next needs this to be defined; it holds in every reachable state.
  predicate Roomy(s: State) {
    0 < s.captured.capacity && 0 < s.videoFrames.capacity
  }

  ghost predicate Step(c: Config, s: State, s': State) {
    Roomy(s) && exists t, e :: Ready(s, t) && s' == Next(c, s, t, e)
  }

  ghost predicate Trace(c: Config, session: nat, headers: nat, states: seq<State>) {
    && ConfigOk(c) && headers <= c.encodedCapacity
    && states != [] && states[0] == Initial(c, session, headers)
    && forall i :: 0 <= i < |states| - 1 ==> Step(c, states[i], states[i + 1])
  }

  ghost predicate Reachable(c: Config, s: State) {
    exists session, headers, states ::
      Trace(c, session, headers, states) && states[|states| - 1] == s
  }

  // With nothing dequeued, published or leased, every count is zero.
  lemma NothingOut(c: Config, s: State)
    requires OwnershipOk(c, s) && s.broker.stats.outstandingFrames == 0
    requires CaptureHand(s.cap) == Nothing
    ensures s.broker.stats.outstandingLeases == 0 && s.camera.outstanding == 0
    ensures forall i :: 0 <= i < c.buffers ==>
              s.camera.buffers[i] == Buffer(Queued, None) && s.broker.slots[i].Vacant?
  {
    NoFramesNoSlots(s.broker.slots);
    forall i | 0 <= i < c.buffers
      ensures s.camera.buffers[i] == Buffer(Queued, None) && s.broker.slots[i].Vacant?
    {
      assert BufferOk(CaptureOf(s), i);
    }
    NoneOut(s.camera.buffers);
    VacantLeases(s.broker.slots);
  }

  lemma {:induction false} VacantLeases(slots: seq<Slot>)
    requires forall i :: 0 <= i < |slots| ==> slots[i].Vacant?
    ensures Total(slots, Leases) == 0
  {
    if slots != [] {
      VacantLeases(slots[1..]);
    }
  }

  lemma NextKeepsReport(c: Config, s: State, t: Thread, e: Env)
    requires Inv(c, s) && Ready(s, t)
    ensures ReportOk(Next(c, s, t, e))
  {
    NextEvolves(c, s, t, e);
    if s.main.MReport? {
      NothingOut(c, s);
    }
  }

  lemma NextKeepsInv(c: Config, s: State, t: Thread, e: Env)
    requires Inv(c, s) && Ready(s, t)
    ensures Inv(c, Next(c, s, t, e))
  {
    NextKeepsOwnership(c, s, t, e);
    NextKeepsFlags(c, s, t, e);
    NextKeepsSlots(c, s, t, e);
    NextKeepsReport(c, s, t, e);
  }

  lemma InitialInv(c: Config, session: nat, headers: nat)
    requires ConfigOk(c) && headers <= c.encodedCapacity
    ensures Inv(c, Initial(c, session, headers))
  {
    InitialOwnership(c, session, headers);
    InitialFlags(c, session, headers);
    InitialSlots(c, session, headers);
  }

  lemma {:induction false} TraceInv(c: Config, session: nat, headers: nat, states: seq<State>)
    requires Trace(c, session, headers, states)
    ensures Inv(c, states[|states| - 1])
  {
    if |states| == 1 {
      InitialInv(c, session, headers);
    } else {
      var front := states[..|states| - 1];
      TraceInv(c, session, headers, front);
      var s, s' := states[|states| - 2], states[|states| - 1];
      assert Step(c, s, s');
      var t, e :| Ready(s, t) && s' == Next(c, s, t, e);
      NextKeepsInv(c, s, t, e);
    }
  }

  lemma ReachableInv(c: Config, s: State)
    requires Reachable(c, s)
    ensures Inv(c, s) && Roomy(s)
  {
    var session, headers, states :| Trace(c, session, headers, states) && states[|states| - 1] == s;
    TraceInv(c, session, headers, states);
  }

  // ----- ownership in every reachable state -----

  // The camera never refuses a buffer, a publish never meets an occupied slot,
  // and each buffer and each lease is in exactly one place.
  lemma BuffersAreOwned(c: Config, s: State)
    requires Reachable(c, s)
    ensures s.cap.CRequeue? || s.cap.CRequeueLast? || s.cap.CRequeueWaited? ==> Accepts(s.camera, s.cap.request)
    ensures s.cap.CDirect? ==> Accepts(s.camera, RequestOf(s.cap.frame))
    ensures |s.camera.buffers| == |s.broker.slots| == c.buffers
    ensures s.cap.CPublish? ==> s.cap.frame.index < c.buffers && s.broker.slots[s.cap.frame.index].Vacant?
    ensures forall i :: 0 <= i < c.buffers ==> BufferOk(CaptureOf(s), i)
    ensures Tracked(s.broker, Inference, InferencePlaces(CaptureOf(s), PreprocessHand(s.pre)))
    ensures Tracked(s.broker, VideoEncoder, VideoPlaces(c, CaptureOf(s), VideoHand(s.vid)))
  {
    ReachableInv(c, s);
    if s.cap.CRequeue? || s.cap.CRequeueLast? || s.cap.CRequeueWaited? {
      HandIsAccepted(c, CaptureOf(s), s.cap.request);
    } else if s.cap.CDirect? {
      HandIsAccepted(c, CaptureOf(s), RequestOf(s.cap.frame));
    } else if s.cap.CPublish? {
      assert BufferOk(CaptureOf(s), s.cap.frame.index);
    }
  }

  // Whoever works on a frame holds a lease the broker still honours, so the
  // frame it reads is the one that was published and the driver cannot touch it.
  lemma WorkersReadLiveFrames(c: Config, s: State, key: Key)
    requires Reachable(c, s)
    requires PreprocessHand(s.pre) == Some(key) || VideoHand(s.vid) == Some(key)
    ensures Holds(s.broker, key) && |s.camera.buffers| == |s.broker.slots|
    ensures s.camera.buffers[key.index] == Buffer(Dequeued, Some(key))
  {
    ReachableInv(c, s);
    var consumer := if PreprocessHand(s.pre) == Some(key) then Inference else VideoEncoder;
    var p := if PreprocessHand(s.pre) == Some(key) then InferencePlaces(CaptureOf(s), PreprocessHand(s.pre))
             else VideoPlaces(c, CaptureOf(s), VideoHand(s.vid));
    assert Tracked(s.broker, consumer, p) && Copies(p, key) >= 1;
    assert Releasable(s.broker, key, consumer);
    assert BufferOk(CaptureOf(s), key.index);
  }

  // ----- slots in every reachable state -----

  // Until a failure each slot is in exactly one place, and every free queue has
  // room for the slot in hand.
  lemma SlotsAreConserved(c: Config, s: State, slot: nat)
    requires Reachable(c, s)
    ensures CopiesOf(Inputs(s), slot) <= 1 && CopiesOf(Outputs(s), slot) <= 1
    ensures !Doomed(s) ==>
              && CopiesOf(Inputs(s), slot) == (if slot < c.inputs then 1 else 0)
              && CopiesOf(Outputs(s), slot) == (if slot < c.outputs then 1 else 0)
    ensures Inputs(s).first.Some? || Inputs(s).second.Some? ==> |s.freeIn.items| < s.freeIn.capacity
    ensures Outputs(s).first.Some? || Outputs(s).second.Some? ==> |s.freeOut.items| < s.freeOut.capacity
  {
    ReachableInv(c, s);
  }

  // A run that ends without a fatal error handed every successful inference to
  // ProcessCompletedFrame exactly once, the last one included.
  lemma EverySuccessIsProcessed(c: Config, s: State)
    requires Reachable(c, s)
    ensures s.processed <= s.successes
    ensures s.npu.NDone? && s.post.ODone? && !s.fatal ==> s.processed == s.successes
  {
    ReachableInv(c, s);
    if s.npu.NDone? && s.post.ODone? && !s.fatal {
      assert s.completed.items == [];
    }
  }

  // ----- shutdown cannot get stuck -----

  predicate WorkersDone(s: State) {
    s.cap.CDone? && s.pre.PDone? && s.vid.VDone? && s.enc.EDone? && s.npu.NDone? && s.post.ODone?
  }

  predicate Finished(s: State) {
    WorkersDone(s) && (s.main.MIdle? || s.main.MDone?)
  }

  // Some thread can go on; a Stop that nobody has called does not count.
  predicate Progress(s: State, t: Thread) {
    Ready(s, t) && !(t == MainThread && s.main.MIdle?)
  }

  lemma VideoCanStep(c: Config, s: State) returns (t: Thread)
    requires Inv(c, s) && c.video && !s.vid.VDone? && s.videoFrames.stopped
    ensures Progress(s, t)
  {
    t := if VideoReady(VideoOf(s)) then VideoThread else EncodedThread;
  }

  lemma PostCanStep(c: Config, s: State) returns (t: Thread)
    requires Inv(c, s) && !s.fatal
    requires s.completed.items != [] || PostOutput(s.post).Some? || (s.completed.stopped && !s.post.ODone?)
    ensures Progress(s, t)
  {
    t := PostThread;
  }

  lemma NpuCanStep(c: Config, s: State) returns (t: Thread)
    requires Inv(c, s) && !Doomed(s)
    requires s.prepared.items != [] || NpuInput(s.npu).Some? || (s.prepared.stopped && !s.npu.NDone?)
    ensures Progress(s, t)
  {
    if NpuReady(NpuOf(s)) {
      t := NpuThread;
    } else {
      assert s.npu.NOut? ==> Size(Outputs(s)) == c.outputs;
      t := PostCanStep(c, s);
    }
  }

  lemma PreprocessCanStep(c: Config, s: State) returns (t: Thread)
    requires Inv(c, s) && !Doomed(s) && !s.pre.PDone? && s.captured.stopped
    ensures Progress(s, t)
  {
    if PreprocessReady(PreprocessOf(s)) {
      t := PreprocessThread;
    } else {
      assert s.pre.PFree? ==> Size(Inputs(s)) == c.inputs;
      t := NpuCanStep(c, s);
    }
  }

  // A capture thread that waits for a requeue waits for a lease that some other
  // unfinished thread holds.
  lemma WaitingForAHolder(c: Config, s: State)
    requires Inv(c, s) && s.cap.CWait? && !CanWaitPop(s.broker)
    ensures !s.pre.PDone? || (c.video && !s.vid.VDone?)
  {
    var key, consumer := SomeLeaseIsOut(s.broker);
    if consumer == Inference {
      assert Copies(InferencePlaces(CaptureOf(s), PreprocessHand(s.pre)), key) == 1;
    } else {
      assert Copies(VideoPlaces(c, CaptureOf(s), VideoHand(s.vid)), key) == 1;
    }
  }

  lemma FatalCanStep(c: Config, s: State) returns (t: Thread)
    requires Inv(c, s) && s.fatal && !Finished(s)
    ensures Progress(s, t)
  {
    if s.cap.CFail? { return CaptureThread; }
    if s.pre.PFail? { return PreprocessThread; }
    if s.npu.NFail? { return NpuThread; }
    assert FailDone(s, FAIL_STORES);
    if !s.enc.EDone? { return EncodedThread; }
    if !s.vid.VDone? { return VideoThread; }
    if !s.pre.PDone? { return PreprocessThread; }
    if !s.npu.NDone? { return NpuThread; }
    if !s.post.ODone? { return PostThread; }
    if !s.cap.CDone? {
      if s.cap.CWait? && !CanWaitPop(s.broker) {
        WaitingForAHolder(c, s);
      }
      return CaptureThread;
    }
    t := MainThread;
  }

  lemma CaptureCanStep(c: Config, s: State) returns (t: Thread)
    requires Inv(c, s) && !Doomed(s) && !s.cap.CDone?
    ensures Progress(s, t)
  {
    if CaptureReady(CaptureOf(s)) {
      t := CaptureThread;
    } else {
      WaitingForAHolder(c, s);
      if !s.pre.PDone? {
        t := PreprocessCanStep(c, s);
      } else {
        t := VideoCanStep(c, s);
      }
    }
  }

  // Stop joins the threads in an order in which each can finish.
  lemma JoinCanStep(c: Config, s: State) returns (t: Thread)
    requires Inv(c, s) && !Doomed(s) && s.cap.CDone? && s.stop && !Finished(s)
    ensures Progress(s, t)
  {
    t := MainThread;
    if s.main.MJoin? && !Joinable(s, s.main.n) {
      if s.main.n == 1 {
        t := VideoCanStep(c, s);
      } else if s.main.n == 2 {
        t := PreprocessCanStep(c, s);
      } else if s.main.n == 3 {
        t := NpuCanStep(c, s);
      } else {
        t := PostCanStep(c, s);
      }
    } else if s.main.MJoinEncoded? && !s.enc.EDone? {
      t := EncodedThread;
    }
  }

  // Once stop is requested, by Stop or by SignalFailure, no interleaving leaves
  // every unfinished thread blocked.
  lemma ShutdownNeverBlocks(c: Config, s: State) returns (t: Thread)
    requires Reachable(c, s) && s.stop && !Finished(s)
    ensures Progress(s, t)
  {
    ReachableInv(c, s);
    if s.fatal {
      t := FatalCanStep(c, s);
    } else if s.cap.CFail? {
      t := CaptureThread;
    } else if s.pre.PFail? || s.pre.PThrow? {
      t := PreprocessThread;
    } else if s.npu.NFail? {
      t := NpuThread;
    } else if !s.cap.CDone? {
      t := CaptureCanStep(c, s);
    } else {
      t := JoinCanStep(c, s);
    }
  }

  // ----- shutdown terminates -----

  function CaptureRank(pc: CapturePc): int {
    match pc
    case CDone => 0
    case CWait => 1
    case CRequeueWaited(_) => 2
    case CDrainLast => 3
    case CRequeueLast(_) => 4
    case CClose(n) => if n < 3 then 8 - n else 5
    case CFail(n, _) => if n < 12 then 21 - n else 9
    case CCheck => 22
    case CDirectDone => 23
    case CEvictVideo(_) => 23
    case CDirect(_) => 24
    case CAbort(_, inference, video, _) =>
      22 + (if inference then 1 else 0) + (if video then 1 else 0)
    case CPushVideo(_) => 28
    case CEvictInference(_, _) => 29
    case CDrain(wake) => if wake then 30 else 49
    case CRequeue(_, wake) => if wake then 31 else 50
    case CPushInference(_) => 42
    case CPublish(_) => 46
    case CRaw(_) => 47
    case CPoll => 48
  }

  function PreprocessRank(pc: PreprocessPc): int {
    match pc
    case PDone => 0
    case PStop => 1
    case PDrain => 2
    case PDrainRelease(_) => 3
    case PFail(n) => if n < 12 then 15 - n else 3
    case PThrow(_) => 16
    case PCaptured(_) => 20
    case PFree => 21
    case PReturn(_, exit) => if exit then 3 else 22
    case PPush(_) => 30
    case PRelease(_, _, _) => 31
    case PWork(_, _) => 32
  }

  function VideoRank(pc: VideoPc): int {
    match pc
    case VDone => 0
    case VDrain => 1
    case VDrainRelease(_) => 2
    case VFail(n) => if n < 4 then 6 - n else 2
    case VPop => 10
    case VPush(_) => 11
    case VRelease(_, _, _) => 12
    case VWork(_) => 13
  }

  function EncodedRank(pc: EncodedPc): int {
    match pc
    case EDone => 0
    case EFail(n, flush) => (if n < 4 then 5 - n else 1) + (if flush then 6 else 0)
    case EFlush => 6
    case EPop => 12
    case EWrite => 12
  }

  function NpuRank(pc: NpuPc): int {
    match pc
    case NDone => 0
    case NStop => 1
    case NAbandon(_) => 2
    case NFail(n) => if n < 12 then 14 - n else 2
    case NPop => 20
    case NReturnOutput(_, exit) => if exit then 2 else 21
    case NProcess(_) => 22
    case NPush(_) => 24
    case NReturnInput(_, _, _) => 25
    case NRun(_, _) => 26
    case NOut(_) => 27
  }

  function PostRank(pc: PostPc): int {
    match pc
    case ODone => 0
    case OPop => 1
    case OReturn(_) => 2
    case OProcess(_) => 3
  }

  function MainRank(pc: MainPc): int {
    match pc
    case MDone(_) => 0
    case MReport => 2
    case MJoinEncoded => 3
    case MStopEncoded => 4
    case MJoin(n) => if n <= 4 then 9 - n else 5
    case MStop(n) => if n == 0 then 11 else 10
    case MIdle => 12
  }

  // What is still to be done with the frames, slots and program counters.
  function WorkLeft(s: State): int {
    3 * s.broker.stats.outstandingFrames
    + 13 * |s.captured.items| + 4 * |s.videoFrames.items|
    + 8 * |s.prepared.items| + 3 * |s.completed.items|
    + CaptureRank(s.cap) + PreprocessRank(s.pre) + VideoRank(s.vid) + EncodedRank(s.enc)
    + NpuRank(s.npu) + PostRank(s.post) + MainRank(s.main)
  }

  // The packets of the frame being encoded and of those queued: their number is
  // the encoder's choice, so they come second in the ranking.
  function PacketsLeft(s: State): nat {
    3 * |s.encoded.items| + PacketsInHand(s.vid) + (if s.enc.EWrite? then 1 else 0)
  }

  function PacketsInHand(pc: VideoPc): nat {
    match pc
    case VPush(packets) => 4 * packets
    case VRelease(_, packets, _) => 4 * packets
    case _ => 0
  }

  ghost predicate Descends(s: State, s': State) {
    || WorkLeft(s') < WorkLeft(s)
    || (WorkLeft(s') == WorkLeft(s) && PacketsLeft(s') < PacketsLeft(s))
  }

  lemma RanksAreNatural(s: State)
    ensures CaptureRank(s.cap) >= 0 && PreprocessRank(s.pre) >= 0 && VideoRank(s.vid) >= 0
    ensures EncodedRank(s.enc) >= 0 && NpuRank(s.npu) >= 0 && PostRank(s.post) >= 0 && MainRank(s.main) >= 0
  {
  }

  lemma WorkLeftIsNatural(c: Config, s: State)
    requires Inv(c, s)
    ensures WorkLeft(s) >= 0
  {
    NoFramesNoSlots(s.broker.slots);
    RanksAreNatural(s);
  }

  // The requests the capture thread requeues are accepted.
  ghost predicate RequeueOk(v: CaptureView) {
    && RequestOk(v.cap)
    && (v.cap.CRequeue? || v.cap.CRequeueLast? ==> Accepts(v.camera, v.cap.request))
  }

  // A pop makes one frame fewer outstanding.
  ghost predicate PopOk(b: Broker) {
    b.completions != [] ==>
      PopRequeue(b).1.Some? && PopRequeue(b).0.stats.outstandingFrames == b.stats.outstandingFrames - 1
  }

  function CaptureWork(v: CaptureView): int {
    3 * v.broker.stats.outstandingFrames + 13 * |v.captured.items| + 4 * |v.videoFrames.items| + CaptureRank(v.cap)
  }

  // A push adds one key to a queue, or takes one evicted key in hand.
  lemma PushDescends(c: Config, v: CaptureView, cameraStop: bool, e: Env)
    requires 0 < v.captured.capacity && 0 < v.videoFrames.capacity
    requires v.cap.CPushInference? || v.cap.CPushVideo?
    ensures CaptureWork(CaptureStep(c, v, true, cameraStop, e)) < CaptureWork(v)
  {
  }

  lemma RawDescends(c: Config, v: CaptureView, i: nat, view: ViewResult)
    requires v.cap == CRaw(i)
    ensures CaptureWork(RawStep(v, i, view)) < CaptureWork(v)
  {
  }

  lemma DrainDescends(v: CaptureView, drain: Drain)
    requires PopOk(v.broker) && CaptureReady(v)
    requires v.cap == match drain case InLoop(wake) => CDrain(wake) case Last => CDrainLast case Waiting => CWait
    ensures CaptureWork(DrainStep(v, drain)) < CaptureWork(v)
  {
  }

  // Every other step only moves on.
  lemma CountDown(c: Config, v: CaptureView, cameraStop: bool, e: Env)
    requires 0 < v.captured.capacity && 0 < v.videoFrames.capacity
    requires CaptureReady(v) && !v.cap.CFail? && RequeueOk(v)
    requires !(v.cap.CPushInference? || v.cap.CPushVideo? || v.cap.CRaw?)
    requires !(v.cap.CDrain? || v.cap.CDrainLast? || v.cap.CWait?)
    ensures CaptureWork(CaptureStep(c, v, true, cameraStop, e)) < CaptureWork(v)
  {
  }

  lemma CaptureDescends(c: Config, v: CaptureView, cameraStop: bool, e: Env)
    requires 0 < v.captured.capacity && 0 < v.videoFrames.capacity
    requires CaptureReady(v) && !v.cap.CFail? && RequeueOk(v) && PopOk(v.broker)
    ensures CaptureWork(CaptureStep(c, v, true, cameraStop, e)) < CaptureWork(v)
  {
    match v.cap {
    case CPushInference(_) => PushDescends(c, v, cameraStop, e);
    case CPushVideo(_) => PushDescends(c, v, cameraStop, e);
    case CRaw(i) => RawDescends(c, v, i, e.view);
    case CDrain(wake) => DrainDescends(v, InLoop(wake));
    case CDrainLast => DrainDescends(v, Last);
    case CWait => DrainDescends(v, Waiting);
    case _ => CountDown(c, v, cameraStop, e);
    }
  }

  lemma CaptureIsServed(c: Config, s: State)
    requires Inv(c, s)
    ensures RequeueOk(CaptureOf(s)) && PopOk(s.broker)
  {
    if s.cap.CRequeue? || s.cap.CRequeueLast? {
      HandIsAccepted(c, CaptureOf(s), s.cap.request);
    }
    if s.broker.completions != [] {
      PopFrees(s.broker);
    }
  }

  lemma CaptureNextDescends(c: Config, s: State, e: Env)
    requires 0 < s.captured.capacity && 0 < s.videoFrames.capacity
    requires RequeueOk(CaptureOf(s)) && PopOk(s.broker) && s.stop && CaptureReady(CaptureOf(s)) && !s.cap.CFail?
    ensures WorkLeft(CaptureNext(c, s, e)) < WorkLeft(s)
  {
    CaptureDescends(c, CaptureOf(s), s.cameraStop, e);
  }

  function PreprocessWork(v: PreprocessView): int {
    3 * v.broker.stats.outstandingFrames + 13 * |v.captured.items| + 8 * |v.prepared.items| + PreprocessRank(v.pre)
  }

  lemma PreprocessDescends(v: PreprocessView, fatal: bool, e: Env)
    requires PreprocessReady(v) && !v.pre.PFail?
    ensures PreprocessWork(PreprocessStep(v, fatal, e)) < PreprocessWork(v)
  {
  }

  function VideoWork(v: VideoView): int {
    3 * v.broker.stats.outstandingFrames + 4 * |v.videoFrames.items| + VideoRank(v.vid)
  }

  lemma VideoDescends(v: VideoView, fatal: bool, e: Env)
    requires VideoReady(v) && (v.vid.VFail? ==> v.vid.n <= VIDEO_FAIL_STORES)
    ensures var v' := VideoStep(v, fatal, e);
      || VideoWork(v') < VideoWork(v)
      || (VideoWork(v') == VideoWork(v)
          && 3 * |v'.encoded.items| + PacketsInHand(v'.vid) < 3 * |v.encoded.items| + PacketsInHand(v.vid))
  {
  }

  lemma EncodedDescends(v: EncodedView, e: Env)
    requires EncodedReady(v) && (v.enc.EFail? ==> v.enc.n <= VIDEO_FAIL_STORES)
    ensures var v' := EncodedStep(v, e);
      && |v'.videoFrames.items| <= |v.videoFrames.items|
      && (|| EncodedRank(v'.enc) < EncodedRank(v.enc)
          || (EncodedRank(v'.enc) == EncodedRank(v.enc)
              && 3 * |v'.encoded.items| + (if v'.enc.EWrite? then 1 else 0)
                 < 3 * |v.encoded.items| + (if v.enc.EWrite? then 1 else 0)))
  {
  }

  function NpuWork(v: NpuView): int {
    8 * |v.prepared.items| + 3 * |v.completed.items| + NpuRank(v.npu)
  }

  lemma NpuDescends(c: Config, v: NpuView, e: Env)
    requires NpuReady(v) && !v.npu.NFail?
    ensures NpuWork(NpuStep(c, v, e)) < NpuWork(v)
  {
  }

  lemma PostDescends(v: PostView)
    requires PostReady(v)
    ensures var v' := PostStep(v);
      3 * |v'.completed.items| + PostRank(v'.post) < 3 * |v.completed.items| + PostRank(v.post)
  {
  }

  lemma MainDescends(s: State)
    requires MainReady(s) && MainOk(s)
    ensures MainRank(MainNext(s).main) < MainRank(s.main)
  {
  }

  // A failing thread has finitely many stores to make.
  lemma FailureDescends(c: Config, s: State, t: Thread)
    requires FailureOk(s) && RequestOk(s.cap) && InFailure(t, s)
    ensures WorkLeft(FailureNext(c, s, t)) < WorkLeft(s)
  {
    FailStoreEvolves(s, StoresMade(t, s));
  }

  lemma WorkerDescends(c: Config, s: State, t: Thread, e: Env)
    requires 0 < s.captured.capacity && 0 < s.videoFrames.capacity
    requires FlagsOk(c, s) && Ready(s, t) && !InFailure(t, s) && t != CaptureThread
    ensures Descends(s, Next(c, s, t, e))
  {
    match t
    case PreprocessThread => PreprocessDescends(PreprocessOf(s), s.fatal, e);
    case VideoThread => VideoDescends(VideoOf(s), s.fatal, e);
    case EncodedThread => EncodedDescends(EncodedOf(s), e);
    case NpuThread => NpuDescends(c, NpuOf(s), e);
    case PostThread => PostDescends(PostOf(s));
    case MainThread => MainDescends(s);
  }

  // Once stop is requested every step of every thread descends.
  lemma EveryStepDescends(c: Config, s: State, t: Thread, e: Env)
    requires Inv(c, s) && s.stop && Ready(s, t)
    ensures Descends(s, Next(c, s, t, e))
  {
    if InFailure(t, s) {
      FailureDescends(c, s, t);
    } else if t.CaptureThread? {
      CaptureIsServed(c, s);
      CaptureNextDescends(c, s, e);
    } else {
      WorkerDescends(c, s, t, e);
    }
  }

  // The run does not go on with a step at index n.
  ghost predicate Halts(c: Config, run: nat -> State, n: nat) {
    !Step(c, run(n), run(n + 1))
  }

  // Hence every run from a state in which stop is requested is finite: whatever
  // the schedule and the environment, at some index no further step is taken.
  lemma {:induction false} ShutdownTerminates(c: Config, run: nat -> State, start: nat)
    requires Inv(c, run(start)) && run(start).stop
    ensures exists n :: n >= start && Halts(c, run, n)
    decreases WorkLeft(run(start)), PacketsLeft(run(start))
  {
    if !Halts(c, run, start) {
      var s := run(start);
      var t, e :| Ready(s, t) && run(start + 1) == Next(c, s, t, e);
      NextKeepsInv(c, s, t, e);
      NextEvolves(c, s, t, e);
      EveryStepDescends(c, s, t, e);
      WorkLeftIsNatural(c, s);
      WorkLeftIsNatural(c, run(start + 1));
      ShutdownTerminates(c, run, start + 1);
    }
  }

  // Where such a run ends, every thread has finished.
  lemma ShutdownEndsFinished(c: Config, s: State)
    requires Reachable(c, s) && s.stop
    requires forall t :: !Progress(s, t)
    ensures Finished(s)
  {
    if !Finished(s) {
      var t := ShutdownNeverBlocks(c, s);
    }
  }

  // With the workers finished, all buffers are back at the driver, and the
  // report that Stop makes before it closes the camera is all zeros.
  lemma EverythingComesBack(c: Config, s: State)
    requires Reachable(c, s)
    ensures s.cap.CDone? ==>
              && s.broker.stats.outstandingFrames == 0
              && s.broker.stats.outstandingLeases == 0
              && s.camera.outstanding == 0
              && |s.camera.buffers| == c.buffers
              && forall i :: 0 <= i < c.buffers ==> s.camera.buffers[i] == Buffer(Queued, None)
    ensures s.main.MDone? ==>
              && WorkersDone(s)
              && s.main.report.frames == s.main.report.leases == s.main.report.cameraOut == 0
  {
    ReachableInv(c, s);
    if s.cap.CDone? {
      NothingOut(c, s);
    }
  }
}
