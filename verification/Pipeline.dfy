/**
 The pipeline threads as an interleaved step system. One step is one critical
 section of a queue, of the broker or of the camera, or one flag store; a call
 that blocks is a step that is ready only when its wait predicate holds. What
 the driver, the NPU, the encoder and the sinks answer is chosen by `Env`.
 */
module Pipelines {
  import opened Wrappers
  import opened CaptureBuffers
  import opened V4l2Cameras
  import Q = BoundedQueues

  type Queue<T> = Q.Queue<T>

  datatype Config = Config(
    buffers: nat, inputs: nat, outputs: nat, video: bool, fused: bool,
    capturedCapacity: nat, videoCapacity: nat, encodedCapacity: nat,
    preparedCapacity: nat, completedCapacity: nat)

  // What Open and Start demand of the configuration.
  ghost predicate ConfigOk(c: Config) {
    && 2 <= c.buffers && 0 < c.inputs && 0 < c.outputs
    && 0 < c.capturedCapacity && 0 < c.videoCapacity && 0 < c.encodedCapacity
    && 0 < c.preparedCapacity && 0 < c.completedCapacity
  }

  // ----- program counters -----

  datatype AfterFailure = ThenCheck | ThenPoll | ThenClose | ThenWait

  datatype CapturePc =
    | CCheck                                   // loop head
    | CDrain(wake: bool)                       // TryPopRequeue
    | CRequeue(request: Request, wake: bool)
    | CPoll                                    // Capture: poll and VIDIOC_DQBUF
    | CRaw(index: nat)                         // Capture: buffer dequeued, no frame view yet
    | CPublish(frame: Frame)
    | CDirect(frame: Frame)                    // RequeueDirect after a refused publish
    | CDirectDone
    | CPushInference(key: Key)
    | CAbort(key: Key, inference: bool, video: bool, thrown: bool)
    | CEvictInference(key: Key, evicted: Key)
    | CPushVideo(key: Key)
    | CEvictVideo(evicted: Key)
    | CFail(n: nat, after: AfterFailure)       // SignalFailure, n stores done
    | CClose(n: nat)                           // producer-owned close chain
    | CDrainLast
    | CRequeueLast(request: Request)
    | CWait                                    // WaitPopRequeue
    | CRequeueWaited(request: Request)
    | CDone

  datatype PreprocessPc =
    | PFree                                    // WaitPop of a free input slot
    | PCaptured(slot: nat)                     // WaitPop of the latest frame
    | PWork(slot: nat, key: Key)
    | PRelease(slot: nat, key: Key, ok: bool)
    | PPush(slot: nat)                         // WaitPush of the prepared frame
    | PReturn(slot: nat, exit: bool)
    | PThrow(key: Key)                         // catch block releases the lease
    | PFail(n: nat)
    | PDrain
    | PDrainRelease(key: Key)
    | PStop
    | PDone

  datatype VideoPc =
    | VPop
    | VWork(key: Key)
    | VRelease(key: Key, packets: nat, failed: bool)
    | VPush(packets: nat)
    | VFail(n: nat)                            // SignalVideoFailure, n stores done
    | VDrain
    | VDrainRelease(key: Key)
    | VDone

  datatype EncodedPc =
    | EPop
    | EWrite
    | EFail(n: nat, flush: bool)               // SignalVideoFailure, then the flush if it is still to come
    | EFlush                                   // Flush after the last packet
    | EDone

  datatype NpuPc =
    | NPop
    | NOut(input: nat)                         // WaitPop of a free output slot
    | NRun(input: nat, output: nat)
    | NReturnInput(input: nat, output: nat, ok: bool)
    | NAbandon(input: nat)                     // no output slot: give back the input and exit
    | NPush(output: nat)                       // WaitPush of the completed frame
    | NProcess(output: nat)                    // fused topology: ProcessCompletedFrame
    | NReturnOutput(output: nat, exit: bool)
    | NFail(n: nat)
    | NStop
    | NDone

  datatype PostPc = OPop | OProcess(output: nat) | OReturn(output: nat) | ODone

  datatype Report = Report(frames: int, leases: int, cameraOut: int, fatal: bool)

  datatype MainPc =
    | MIdle
    | MStop(n: nat)
    | MJoin(n: nat)
    | MStopEncoded
    | MJoinEncoded
    | MReport
    | MDone(report: Report)

  datatype State = State(
    camera: Camera, broker: Broker,
    captured: Queue<Key>, videoFrames: Queue<Key>, encoded: Queue<()>,
    prepared: Queue<nat>, completed: Queue<nat>, freeIn: Queue<nat>, freeOut: Queue<nat>,
    cap: CapturePc, pre: PreprocessPc, vid: VideoPc, enc: EncodedPc, npu: NpuPc, post: PostPc,
    main: MainPc,
    stop: bool, cameraStop: bool, fatal: bool, videoFailed: bool,
    successes: nat, processed: nat)

  // ----- what each thread works on -----

  datatype CaptureView = CaptureView(
    camera: Camera, broker: Broker, captured: Queue<Key>, videoFrames: Queue<Key>, cap: CapturePc)

  datatype PreprocessView = PreprocessView(
    broker: Broker, captured: Queue<Key>, prepared: Queue<nat>, freeIn: Queue<nat>, pre: PreprocessPc)

  datatype VideoView = VideoView(
    broker: Broker, videoFrames: Queue<Key>, encoded: Queue<()>, videoFailed: bool, vid: VideoPc)

  datatype EncodedView = EncodedView(
    videoFrames: Queue<Key>, encoded: Queue<()>, videoFailed: bool, enc: EncodedPc)

  datatype NpuView = NpuView(
    prepared: Queue<nat>, completed: Queue<nat>, freeIn: Queue<nat>, freeOut: Queue<nat>,
    successes: nat, processed: nat, npu: NpuPc)

  datatype PostView = PostView(completed: Queue<nat>, freeOut: Queue<nat>, processed: nat, post: PostPc)

  datatype MainView = MainView(encoded: Queue<()>, stop: bool, cameraStop: bool, main: MainPc)

  function CaptureOf(s: State): CaptureView {
    CaptureView(s.camera, s.broker, s.captured, s.videoFrames, s.cap)
  }

  function PreprocessOf(s: State): PreprocessView {
    PreprocessView(s.broker, s.captured, s.prepared, s.freeIn, s.pre)
  }

  function VideoOf(s: State): VideoView {
    VideoView(s.broker, s.videoFrames, s.encoded, s.videoFailed, s.vid)
  }

  function EncodedOf(s: State): EncodedView {
    EncodedView(s.videoFrames, s.encoded, s.videoFailed, s.enc)
  }

  function NpuOf(s: State): NpuView {
    NpuView(s.prepared, s.completed, s.freeIn, s.freeOut, s.successes, s.processed, s.npu)
  }

  function PostOf(s: State): PostView {
    PostView(s.completed, s.freeOut, s.processed, s.post)
  }

  function MainOf(s: State): MainView {
    MainView(s.encoded, s.stop, s.cameraStop, s.main)
  }

  function WithCapture(s: State, v: CaptureView): State {
    s.(camera := v.camera, broker := v.broker, captured := v.captured, videoFrames := v.videoFrames, cap := v.cap)
  }

  function WithPreprocess(s: State, v: PreprocessView): State {
    s.(broker := v.broker, captured := v.captured, prepared := v.prepared, freeIn := v.freeIn, pre := v.pre)
  }

  function WithVideo(s: State, v: VideoView): State {
    s.(broker := v.broker, videoFrames := v.videoFrames, encoded := v.encoded, videoFailed := v.videoFailed,
       vid := v.vid)
  }

  function WithEncoded(s: State, v: EncodedView): State {
    s.(videoFrames := v.videoFrames, encoded := v.encoded, videoFailed := v.videoFailed, enc := v.enc)
  }

  function WithNpu(s: State, v: NpuView): State {
    s.(prepared := v.prepared, completed := v.completed, freeIn := v.freeIn, freeOut := v.freeOut,
       successes := v.successes, processed := v.processed, npu := v.npu)
  }

  function WithPost(s: State, v: PostView): State {
    s.(completed := v.completed, freeOut := v.freeOut, processed := v.processed, post := v.post)
  }

  function WithMain(s: State, v: MainView): State {
    s.(encoded := v.encoded, stop := v.stop, cameraStop := v.cameraStop, main := v.main)
  }

  // ----- the environment -----

  datatype PollResult = Timeout | Wake | DriverError | StopSeen | PollThrows | Delivered(index: nat)

  datatype ViewResult = Flagged | ViewThrows | Viewed(view: Frame)

  datatype WorkResult = Succeeds | Fails | Throws

  datatype Env = Env(poll: PollResult, view: ViewResult, work: WorkResult, wellFormed: bool, packets: nat)

  // ----- SignalFailure and SignalVideoFailure -----

  const FAIL_STORES := 11
  const VIDEO_FAIL_STORES := 3

  function StopIf<T>(now: bool, q: Queue<T>): Queue<T> {
    if now then Q.Stopped(q) else q
  }

  // The n-th store of SignalFailure.
  function FailStore(s: State, n: nat): State {
    s.(fatal := s.fatal || n == 0,
       stop := s.stop || n == 1,
       broker := if n == 2 then Close(s.broker) else s.broker,
       cameraStop := s.cameraStop || n == 3,
       captured := StopIf(n == 4, s.captured),
       videoFrames := StopIf(n == 5, s.videoFrames),
       encoded := StopIf(n == 6, s.encoded),
       prepared := StopIf(n == 7, s.prepared),
       completed := StopIf(n == 8, s.completed),
       freeIn := StopIf(n == 9, s.freeIn),
       freeOut := StopIf(n == 10, s.freeOut))
  }

  // ----- capture thread -----

  predicate CaptureReady(v: CaptureView) {
    match v.cap
    case CWait => CanWaitPop(v.broker)
    case CDone => false
    case _ => true
  }

  function AfterInference(c: Config, key: Key): CapturePc {
    if c.video then CPushVideo(key) else CCheck
  }

  function Resume(after: AfterFailure): CapturePc {
    match after
    case ThenCheck => CCheck
    case ThenPoll => CPoll
    case ThenClose => CClose(0)
    case ThenWait => CWait
  }

  function PollStep(v: CaptureView, cameraStop: bool, poll: PollResult): CaptureView {
    match poll
    case Timeout | DriverError => v.(cap := CCheck)
    case Wake => v.(cap := CDrain(true))
    case StopSeen => v.(cap := if cameraStop then CClose(0) else CCheck)
    case PollThrows => v.(cap := CFail(0, ThenClose))
    case Delivered(i) =>
      var (camera, ok) := Dequeue(v.camera, i);
      v.(camera := camera, cap := if ok then CRaw(i) else CFail(0, ThenClose))
  }

  function RawStep(v: CaptureView, i: nat, view: ViewResult): CaptureView {
    match view
    case Flagged => v.(camera := RequeueByIndex(v.camera, i, true).0, cap := CCheck)
    case ViewThrows => v.(camera := RequeueByIndex(v.camera, i, true).0, cap := CFail(0, ThenClose))
    case Viewed(f) =>
      var (camera, ok) := AttachKey(v.camera, f, i);
      if ok then v.(camera := camera, cap := CPublish(Stamp(v.camera, f, i)))
      else v.(camera := RequeueByIndex(camera, i, true).0, cap := CFail(0, ThenClose))
  }

  function PublishStep(c: Config, v: CaptureView, f: Frame, wellFormed: bool): CaptureView {
    var (broker, ok) := Publish(v.broker, PublishInput(f, Consumers(c.video, true), wellFormed));
    v.(broker := broker, cap := if ok then CPushInference(KeyOf(f)) else CDirect(f))
  }

  function PushInferenceStep(c: Config, v: CaptureView, key: Key, throws: bool): CaptureView
    requires 0 < v.captured.capacity
  {
    if throws then v.(cap := CAbort(key, true, c.video, true))
    else
      var (queue, ok, out) := Q.PushedLatest(v.captured, key);
      v.(captured := queue,
         cap := if !ok then CAbort(key, true, c.video, false)
                else if out.Some? then CEvictInference(key, out.value)
                else AfterInference(c, key))
  }

  function PushVideoStep(v: CaptureView, key: Key): CaptureView
    requires 0 < v.videoFrames.capacity
  {
    var (queue, ok, out) := Q.PushedLatest(v.videoFrames, key);
    v.(videoFrames := queue, cap := if out.Some? then CEvictVideo(out.value) else CCheck)
  }

  function ReleaseStep(v: CaptureView, key: Key, consumer: Consumer, cap: CapturePc): CaptureView {
    v.(broker := ReleaseLease(v.broker, key, consumer).0, cap := cap)
  }

  function AbortStep(v: CaptureView, key: Key, inference: bool, video: bool, thrown: bool): CaptureView {
    if inference then ReleaseStep(v, key, Inference, CAbort(key, false, video, thrown))
    else if video then ReleaseStep(v, key, VideoEncoder, CAbort(key, false, false, thrown))
    else v.(cap := if thrown then CFail(0, ThenClose) else CClose(0))
  }

  function CloseStep(v: CaptureView, n: nat): CaptureView {
    if n == 0 then v.(captured := Q.Stopped(v.captured), cap := CClose(1))
    else if n == 1 then v.(videoFrames := Q.Stopped(v.videoFrames), cap := CClose(2))
    else v.(broker := Close(v.broker), cap := CDrainLast)
  }

  // Which of the three requeue loops pops a request.
  datatype Drain = InLoop(wake: bool) | Last | Waiting

  function AfterPop(drain: Drain, request: Option<Request>): CapturePc {
    match drain
    case InLoop(wake) =>
      if request.Some? then CRequeue(request.value, wake) else if wake then CCheck else CPoll
    case Last => if request.Some? then CRequeueLast(request.value) else CWait
    case Waiting => if request.Some? then CRequeueWaited(request.value) else CDone
  }

  function DrainStep(v: CaptureView, drain: Drain): CaptureView {
    var (broker, request) := PopRequeue(v.broker);
    v.(broker := broker, cap := AfterPop(drain, request))
  }

  function RequeueStep(v: CaptureView, request: Request, accepted: CapturePc, refused: CapturePc): CaptureView {
    var (camera, ok) := Requeue(v.camera, request, true);
    v.(camera := camera, cap := if ok then accepted else refused)
  }

  // Outside SignalFailure.
  function CaptureStep(c: Config, v: CaptureView, stop: bool, cameraStop: bool, e: Env): CaptureView
    requires 0 < v.captured.capacity && 0 < v.videoFrames.capacity
  {
    match v.cap
    case CCheck => v.(cap := if stop then CClose(0) else CDrain(false))
    case CDrain(wake) => DrainStep(v, InLoop(wake))
    case CRequeue(r, wake) => RequeueStep(v, r, CDrain(wake), CFail(0, if wake then ThenCheck else ThenPoll))
    case CPoll => PollStep(v, cameraStop, e.poll)
    case CRaw(i) => RawStep(v, i, e.view)
    case CPublish(f) => PublishStep(c, v, f, e.wellFormed)
    case CDirect(f) => RequeueStep(v, RequestOf(f), CDirectDone, CDirectDone)
    case CDirectDone => v.(cap := if v.broker.closed then CClose(0) else CCheck)
    case CPushInference(key) => PushInferenceStep(c, v, key, e.work == Throws)
    case CAbort(key, inference, video, thrown) => AbortStep(v, key, inference, video, thrown)
    case CEvictInference(key, evicted) => ReleaseStep(v, evicted, Inference, AfterInference(c, key))
    case CPushVideo(key) => PushVideoStep(v, key)
    case CEvictVideo(evicted) => ReleaseStep(v, evicted, VideoEncoder, CCheck)
    case CFail(_, _) => v
    case CClose(n) => CloseStep(v, n)
    case CDrainLast => DrainStep(v, Last)
    case CRequeueLast(r) => RequeueStep(v, r, CDrainLast, CFail(0, ThenWait))
    case CWait => DrainStep(v, Waiting)
    case CRequeueWaited(r) => RequeueStep(v, r, CWait, CWait)
    case CDone => v
  }

  function CaptureNext(c: Config, s: State, e: Env): State
    requires 0 < s.captured.capacity && 0 < s.videoFrames.capacity
  {
    WithCapture(s, CaptureStep(c, CaptureOf(s), s.stop, s.cameraStop, e))
  }

  // ----- preprocess thread -----

  predicate PreprocessReady(v: PreprocessView) {
    match v.pre
    case PFree => Q.CanWaitPop(v.freeIn)
    case PCaptured(_) => Q.CanWaitPop(v.captured)
    case PPush(_) => Q.CanWaitPush(v.prepared)
    case PDone => false
    case _ => true
  }

  function ReleaseInference(v: PreprocessView, key: Key, pre: PreprocessPc): PreprocessView {
    v.(broker := ReleaseLease(v.broker, key, Inference).0, pre := pre)
  }

  // Outside SignalFailure.
  function PreprocessStep(v: PreprocessView, fatal: bool, e: Env): PreprocessView {
    match v.pre
    case PFree =>
      if e.work == Throws then v.(pre := PFail(0))
      else
        var (queue, slot) := Q.Popped(v.freeIn);
        v.(freeIn := queue, pre := if slot.Some? then PCaptured(slot.value) else PDrain)
    case PCaptured(slot) =>
      if e.work == Throws then v.(pre := PFail(0))
      else
        var (queue, key) := Q.Popped(v.captured);
        v.(captured := queue, pre := if key.Some? then PWork(slot, key.value) else PReturn(slot, true))
    case PWork(slot, key) =>
      v.(pre := if fatal then PRelease(slot, key, false)
                else if e.work == Throws then PThrow(key)
                else PRelease(slot, key, e.work == Succeeds))
    case PRelease(slot, key, ok) =>
      ReleaseInference(v, key, if ok then PPush(slot) else PReturn(slot, false))
    case PPush(slot) =>
      var (queue, ok) := Q.Pushed(v.prepared, slot);
      v.(prepared := queue, pre := if ok then PFree else PReturn(slot, true))
    case PReturn(slot, exit) =>
      v.(freeIn := Q.Pushed(v.freeIn, slot).0, pre := if exit then PDrain else PFree)
    case PThrow(key) => ReleaseInference(v, key, PFail(0))
    case PFail(_) => v
    case PDrain =>
      var (queue, key) := Q.Popped(v.captured);
      v.(captured := queue, pre := if key.Some? then PDrainRelease(key.value) else PStop)
    case PDrainRelease(key) => ReleaseInference(v, key, PDrain)
    case PStop => v.(prepared := Q.Stopped(v.prepared), pre := PDone)
    case PDone => v
  }

  function PreprocessNext(s: State, e: Env): State {
    WithPreprocess(s, PreprocessStep(PreprocessOf(s), s.fatal, e))
  }

  // ----- video thread -----

  predicate VideoReady(v: VideoView) {
    match v.vid
    case VPop => Q.CanWaitPop(v.videoFrames)
    case VPush(packets) => packets == 0 || Q.CanWaitPush(v.encoded)
    case VDone => false
    case _ => true
  }

  function ReleaseVideo(v: VideoView, key: Key, vid: VideoPc): VideoView {
    v.(broker := ReleaseLease(v.broker, key, VideoEncoder).0, vid := vid)
  }

  function VideoStep(v: VideoView, fatal: bool, e: Env): VideoView {
    match v.vid
    case VPop =>
      var (queue, key) := Q.Popped(v.videoFrames);
      v.(videoFrames := queue, vid := if key.Some? then VWork(key.value) else VDrain)
    case VWork(key) =>
      v.(vid := if fatal || v.videoFailed then VRelease(key, 0, false)
                else if e.work == Succeeds then VRelease(key, e.packets, false)
                else VRelease(key, 0, true))
    case VRelease(key, packets, failed) => ReleaseVideo(v, key, if failed then VFail(0) else VPush(packets))
    case VPush(packets) =>
      if packets == 0 then v.(vid := VPop)
      else
        var (queue, ok) := Q.Pushed(v.encoded, ());
        v.(encoded := queue, vid := if ok then VPush(packets - 1) else VPop)
    case VFail(n) =>
      if n == 0 then v.(videoFailed := true, vid := VFail(1))
      else if n == 1 then v.(videoFrames := Q.Stopped(v.videoFrames), vid := VFail(2))
      else if n == 2 then v.(encoded := Q.Stopped(v.encoded), vid := VFail(3))
      else v.(vid := VDrain)
    case VDrain =>
      var (queue, key) := Q.Popped(v.videoFrames);
      v.(videoFrames := queue, vid := if key.Some? then VDrainRelease(key.value) else VDone)
    case VDrainRelease(key) => ReleaseVideo(v, key, VDrain)
    case VDone => v
  }

  function VideoNext(s: State, e: Env): State {
    WithVideo(s, VideoStep(VideoOf(s), s.fatal, e))
  }

  // ----- encoded packet thread -----

  predicate EncodedReady(v: EncodedView) {
    match v.enc
    case EPop => Q.CanWaitPop(v.encoded)
    case EDone => false
    case _ => true
  }

  function EncodedStep(v: EncodedView, e: Env): EncodedView {
    match v.enc
    case EPop =>
      var (queue, packet) := Q.Popped(v.encoded);
      v.(encoded := queue, enc := if packet.Some? then EWrite else EFlush)
    case EWrite => v.(enc := if e.work == Succeeds then EPop else EFail(0, e.work == Fails))
    case EFail(n, flush) =>
      if n == 0 then v.(videoFailed := true, enc := EFail(1, flush))
      else if n == 1 then v.(videoFrames := Q.Stopped(v.videoFrames), enc := EFail(2, flush))
      else if n == 2 then v.(encoded := Q.Stopped(v.encoded), enc := EFail(3, flush))
      else v.(enc := if flush then EFlush else EDone)
    case EFlush => v.(enc := if e.work == Throws then EFail(0, false) else EDone)
    case EDone => v
  }

  function EncodedNext(s: State, e: Env): State {
    WithEncoded(s, EncodedStep(EncodedOf(s), e))
  }

  // ----- NPU thread, both topologies -----

  predicate NpuReady(v: NpuView) {
    match v.npu
    case NPop => Q.CanWaitPop(v.prepared)
    case NOut(_) => Q.CanWaitPop(v.freeOut)
    case NPush(_) => Q.CanWaitPush(v.completed)
    case NDone => false
    case _ => true
  }

  function NpuExit(c: Config): NpuPc {
    if c.fused then NDone else NStop
  }

  // Outside SignalFailure.
  function NpuStep(c: Config, v: NpuView, e: Env): NpuView {
    match v.npu
    case NPop =>
      var (queue, input) := Q.Popped(v.prepared);
      v.(prepared := queue, npu := if input.Some? then NOut(input.value) else NpuExit(c))
    case NOut(input) =>
      var (queue, output) := Q.Popped(v.freeOut);
      v.(freeOut := queue, npu := if output.Some? then NRun(input, output.value) else NAbandon(input))
    case NRun(input, output) =>
      v.(npu := if e.work == Throws then NFail(0) else NReturnInput(input, output, e.work == Succeeds),
         successes := v.successes + if e.work == Succeeds then 1 else 0)
    case NReturnInput(input, output, ok) =>
      v.(freeIn := Q.Pushed(v.freeIn, input).0,
         npu := if !ok then NReturnOutput(output, false) else if c.fused then NProcess(output) else NPush(output))
    case NAbandon(input) => v.(freeIn := Q.Pushed(v.freeIn, input).0, npu := NpuExit(c))
    case NPush(output) =>
      var (queue, ok) := Q.Pushed(v.completed, output);
      v.(completed := queue, npu := if ok then NPop else NReturnOutput(output, true))
    case NProcess(output) => v.(npu := NReturnOutput(output, false), processed := v.processed + 1)
    case NReturnOutput(output, exit) =>
      v.(freeOut := Q.Pushed(v.freeOut, output).0, npu := if exit then NpuExit(c) else NPop)
    case NFail(_) => v
    case NStop => v.(completed := Q.Stopped(v.completed), npu := NDone)
    case NDone => v
  }

  function NpuNext(c: Config, s: State, e: Env): State {
    WithNpu(s, NpuStep(c, NpuOf(s), e))
  }

  // ----- postprocess thread -----

  predicate PostReady(v: PostView) {
    match v.post
    case OPop => Q.CanWaitPop(v.completed)
    case ODone => false
    case _ => true
  }

  function PostStep(v: PostView): PostView {
    match v.post
    case OPop =>
      var (queue, output) := Q.Popped(v.completed);
      v.(completed := queue, post := if output.Some? then OProcess(output.value) else ODone)
    case OProcess(output) => v.(post := OReturn(output), processed := v.processed + 1)
    case OReturn(output) => v.(freeOut := Q.Pushed(v.freeOut, output).0, post := OPop)
    case ODone => v
  }

  function PostNext(s: State): State {
    WithPost(s, PostStep(PostOf(s)))
  }

  // ----- the thread that calls Stop -----

  predicate Joinable(s: State, n: nat) {
    if n == 0 then s.cap.CDone?
    else if n == 1 then s.vid.VDone?
    else if n == 2 then s.pre.PDone?
    else if n == 3 then s.npu.NDone?
    else s.post.ODone?
  }

  predicate MainReady(s: State) {
    match s.main
    case MJoin(n) => Joinable(s, n)
    case MJoinEncoded => s.enc.EDone?
    case MDone(_) => false
    case _ => true
  }

  function ReportOf(s: State): Report {
    Report(s.broker.stats.outstandingFrames, s.broker.stats.outstandingLeases, s.camera.outstanding, s.fatal)
  }

  function MainStep(v: MainView, report: Report): MainView {
    match v.main
    case MIdle => v.(main := MStop(0))
    case MStop(n) =>
      if n == 0 then v.(stop := true, main := MStop(1)) else v.(cameraStop := true, main := MJoin(0))
    case MJoin(n) => v.(main := if n < 4 then MJoin(n + 1) else MStopEncoded)
    case MStopEncoded => v.(encoded := Q.Stopped(v.encoded), main := MJoinEncoded)
    case MJoinEncoded => v.(main := MReport)
    case MReport => v.(main := MDone(report))
    case MDone(_) => v
  }

  function MainNext(s: State): State {
    WithMain(s, MainStep(MainOf(s), ReportOf(s)))
  }

  // ----- the system -----

  datatype Thread = CaptureThread | PreprocessThread | VideoThread | EncodedThread
                  | NpuThread | PostThread | MainThread

  predicate Ready(s: State, t: Thread) {
    match t
    case CaptureThread => CaptureReady(CaptureOf(s))
    case PreprocessThread => PreprocessReady(PreprocessOf(s))
    case VideoThread => VideoReady(VideoOf(s))
    case EncodedThread => EncodedReady(EncodedOf(s))
    case NpuThread => NpuReady(NpuOf(s))
    case PostThread => PostReady(PostOf(s))
    case MainThread => MainReady(s)
  }

  // The thread is inside SignalFailure.
  predicate InFailure(t: Thread, s: State) {
    (t.CaptureThread? && s.cap.CFail?) || (t.PreprocessThread? && s.pre.PFail?) || (t.NpuThread? && s.npu.NFail?)
  }

  // How many of its stores the thread has made.
  function StoresMade(t: Thread, s: State): nat
    requires InFailure(t, s)
  {
    match t
    case CaptureThread => s.cap.n
    case PreprocessThread => s.pre.n
    case NpuThread => s.npu.n
  }

  function Stored(s: State, n: nat): State {
    if n < FAIL_STORES then FailStore(s, n) else s
  }

  // The next store, or the way on after the last one.
  function FailureNext(c: Config, s: State, t: Thread): State
    requires InFailure(t, s)
  {
    var n := StoresMade(t, s);
    var more := n < FAIL_STORES;
    match t
    case CaptureThread =>
      Stored(s, n).(cap := if more then CFail(n + 1, s.cap.after) else Resume(s.cap.after))
    case PreprocessThread => Stored(s, n).(pre := if more then PFail(n + 1) else PDrain)
    case NpuThread => Stored(s, n).(npu := if more then NFail(n + 1) else NpuExit(c))
  }

  function Next(c: Config, s: State, t: Thread, e: Env): State
    requires 0 < s.captured.capacity && 0 < s.videoFrames.capacity
  {
    if InFailure(t, s) then FailureNext(c, s, t)
    else
      match t
      case CaptureThread => CaptureNext(c, s, e)
      case PreprocessThread => PreprocessNext(s, e)
      case VideoThread => VideoNext(s, e)
      case EncodedThread => EncodedNext(s, e)
      case NpuThread => NpuNext(c, s, e)
      case PostThread => PostNext(s)
      case MainThread => MainNext(s)
  }

  // The state in which Start leaves the pipeline; `headers` packets of codec
  // configuration are already queued.
  function Initial(c: Config, session: nat, headers: nat): State {
    State(
      Streaming(c.buffers, session), Fresh(c.buffers),
      Q.Empty(c.capturedCapacity), Q.Empty(c.videoCapacity), Loaded(c.encodedCapacity, seq(headers, i => ())),
      Q.Empty(c.preparedCapacity), Q.Empty(c.completedCapacity),
      Loaded(c.inputs, seq(c.inputs, i => i)), Loaded(c.outputs, seq(c.outputs, i => i)),
      CCheck, PFree, if c.video then VPop else VDone, if c.video then EPop else EDone,
      NPop, if c.fused then ODone else OPop, MIdle,
      false, false, false, false, 0, 0)
  }

  // A queue filled before any thread runs.
  function Loaded<T>(capacity: nat, items: seq<T>): Queue<T> {
    Q.Queue(items, capacity, false, |items|, 0, 0, |items|)
  }
}
