/**
 What one step of a thread can change, whatever it does: the other threads stay
 where they are, flags only rise, and closed queues only drain. Everything else
 that the pipeline proofs need to know about the other threads follows from this.
 */
module PipelineFrames {
  import opened CaptureBuffers
  import opened Pipelines

  // No queue outgrows its capacity, and a closed one stays closed and only drains.
  ghost predicate QueueEvolves<T>(q: Queue<T>, q': Queue<T>) {
    && q'.capacity == q.capacity
    && (|q.items| <= q.capacity ==> |q'.items| <= q.capacity)
    && (q.stopped ==> q'.stopped && |q'.items| <= |q.items|)
  }

  // It also gets no new item and is not closed.
  ghost predicate QueueDrains<T>(q: Queue<T>, q': Queue<T>) {
    q'.capacity == q.capacity && q'.stopped == q.stopped && |q'.items| <= |q.items|
  }

  ghost predicate FlagsRise(s: State, s': State) {
    && (s.fatal ==> s'.fatal)
    && (s.stop ==> s'.stop)
    && (s.cameraStop ==> s'.cameraStop)
    && (s.broker.closed ==> s'.broker.closed)
  }

  ghost predicate QueuesEvolve(s: State, s': State) {
    && QueueEvolves(s.captured, s'.captured)
    && QueueEvolves(s.videoFrames, s'.videoFrames)
    && QueueEvolves(s.encoded, s'.encoded)
    && QueueEvolves(s.prepared, s'.prepared)
    && QueueEvolves(s.completed, s'.completed)
    && QueueEvolves(s.freeIn, s'.freeIn)
    && QueueEvolves(s.freeOut, s'.freeOut)
  }

  // A thread moves its own program counter only.
  ghost predicate OthersStay(t: Thread, s: State, s': State) {
    && (t != CaptureThread ==> s'.cap == s.cap)
    && (t != PreprocessThread ==> s'.pre == s.pre)
    && (t != VideoThread ==> s'.vid == s.vid)
    && (t != EncodedThread ==> s'.enc == s.enc)
    && (t != NpuThread ==> s'.npu == s.npu)
    && (t != PostThread ==> s'.post == s.post)
    && (t != MainThread ==> s'.main == s.main)
  }

  // Only the capture thread takes buffers and publishes frames.
  ghost predicate FramesStay(t: Thread, s: State, s': State) {
    && (t != CaptureThread ==>
          && s'.camera == s.camera
          && s'.broker.stats.outstandingFrames == s.broker.stats.outstandingFrames)
    && (t != CaptureThread || !s.cap.CPushVideo? ==> |s'.videoFrames.items| <= |s.videoFrames.items|)
    && (!(t.CaptureThread? || t.PreprocessThread? || t.VideoThread?) ==>
          && s'.captured.items == s.captured.items && s'.videoFrames.items == s.videoFrames.items
          && (s'.broker == s.broker || s'.broker == Close(s.broker)))
  }

  // Slots circulate between the preprocess, NPU and postprocess threads.
  ghost predicate SlotsStay(t: Thread, s: State, s': State) {
    && (!(t.PreprocessThread? || t.NpuThread?) ==>
          s'.freeIn.items == s.freeIn.items && s'.prepared.items == s.prepared.items)
    && (!(t.NpuThread? || t.PostThread?) ==>
          && s'.freeOut.items == s.freeOut.items && s'.completed.items == s.completed.items
          && s'.processed == s.processed)
    && (t != NpuThread ==> |s'.completed.items| <= |s.completed.items| && s'.successes == s.successes)
  }

  // Outside SignalFailure a queue of the slots is closed only by the thread that feeds
  // it, at its end, and SignalFailure starts at its first store.
  ghost predicate Quiet(t: Thread, s: State, s': State) {
    && s'.fatal == s.fatal
    && (t != MainThread ==> s'.stop == s.stop)
    && s'.freeIn.stopped == s.freeIn.stopped && s'.freeOut.stopped == s.freeOut.stopped
    && (s'.prepared.stopped ==> s.prepared.stopped || s'.pre.PDone?)
    && (s'.completed.stopped ==> s.completed.stopped || s'.npu.NDone?)
    && (s'.cap.CFail? ==> s'.cap == s.cap || s'.cap.n == 0)
    && (s'.pre.PFail? ==> s'.pre == s.pre || s'.pre.n == 0)
    && (s'.npu.NFail? ==> s'.npu == s.npu || s'.npu.n == 0)
  }

  ghost predicate Evolves(t: Thread, s: State, s': State) {
    && FlagsRise(s, s') && QueuesEvolve(s, s')
    && OthersStay(t, s, s') && FramesStay(t, s, s') && SlotsStay(t, s, s')
    && (!InFailure(t, s) ==> Quiet(t, s, s'))
  }

  // A store of SignalFailure closes one thing and moves nothing.
  lemma FailStoreEvolves(s: State, n: nat)
    ensures var s' := FailStore(s, n);
      && FlagsRise(s, s') && QueuesEvolve(s, s')
      && s'.captured.items == s.captured.items && s'.videoFrames.items == s.videoFrames.items
      && s'.freeIn.items == s.freeIn.items && s'.prepared.items == s.prepared.items
      && s'.freeOut.items == s.freeOut.items && s'.completed.items == s.completed.items
      && s'.camera == s.camera && (s'.broker == s.broker || s'.broker == Close(s.broker))
  {
  }

  lemma FailureEvolves(c: Config, s: State, t: Thread)
    requires InFailure(t, s)
    ensures Evolves(t, s, FailureNext(c, s, t))
  {
    FailStoreEvolves(s, StoresMade(t, s));
  }

  // The steps that only drive the camera.
  predicate DrivesCamera(pc: CapturePc) {
    pc.CRequeue? || pc.CPoll? || pc.CRaw? || pc.CDirect? || pc.CRequeueLast? || pc.CRequeueWaited?
  }

  lemma CameraStepEvolves(c: Config, v: CaptureView, stop: bool, cameraStop: bool, e: Env)
    requires 0 < v.captured.capacity && 0 < v.videoFrames.capacity && DrivesCamera(v.cap)
    ensures CaptureMoves(v, CaptureStep(c, v, stop, cameraStop, e))
  {
  }

  lemma CaptureStepEvolves(c: Config, v: CaptureView, stop: bool, cameraStop: bool, e: Env)
    requires 0 < v.captured.capacity && 0 < v.videoFrames.capacity && !v.cap.CFail?
    ensures CaptureMoves(v, CaptureStep(c, v, stop, cameraStop, e))
  {
    if DrivesCamera(v.cap) {
      CameraStepEvolves(c, v, stop, cameraStop, e);
    }
  }

  ghost predicate CaptureMoves(v: CaptureView, v': CaptureView) {
    && QueueEvolves(v.captured, v'.captured) && QueueEvolves(v.videoFrames, v'.videoFrames)
    && (!v.cap.CPushVideo? ==> |v'.videoFrames.items| <= |v.videoFrames.items|)
    && (v.broker.closed ==> v'.broker.closed)
    && (v'.cap.CFail? ==> v'.cap.n == 0)
  }

  lemma CaptureMovesEvolve(s: State, v': CaptureView)
    requires CaptureMoves(CaptureOf(s), v')
    ensures Evolves(CaptureThread, s, WithCapture(s, v'))
  {
  }

  lemma CaptureEvolves(c: Config, s: State, e: Env)
    requires 0 < s.captured.capacity && 0 < s.videoFrames.capacity && !s.cap.CFail?
    ensures Evolves(CaptureThread, s, CaptureNext(c, s, e))
  {
    CaptureStepEvolves(c, CaptureOf(s), s.stop, s.cameraStop, e);
    CaptureMovesEvolve(s, CaptureStep(c, CaptureOf(s), s.stop, s.cameraStop, e));
  }

  lemma PreprocessStepEvolves(v: PreprocessView, fatal: bool, e: Env)
    requires !v.pre.PFail?
    ensures PreprocessMoves(v, PreprocessStep(v, fatal, e))
  {
  }

  ghost predicate PreprocessMoves(v: PreprocessView, v': PreprocessView) {
    && QueueDrains(v.captured, v'.captured)
    && QueueEvolves(v.prepared, v'.prepared) && (v'.prepared.stopped ==> v.prepared.stopped || v'.pre.PDone?)
    && QueueEvolves(v.freeIn, v'.freeIn) && v'.freeIn.stopped == v.freeIn.stopped
    && v'.broker.closed == v.broker.closed
    && v'.broker.stats.outstandingFrames == v.broker.stats.outstandingFrames
    && (v'.pre.PFail? ==> v'.pre.n == 0)
  }

  lemma PreprocessMovesEvolve(s: State, v': PreprocessView)
    requires PreprocessMoves(PreprocessOf(s), v')
    ensures Evolves(PreprocessThread, s, WithPreprocess(s, v'))
  {
  }

  lemma PreprocessEvolves(s: State, e: Env)
    requires !s.pre.PFail?
    ensures Evolves(PreprocessThread, s, PreprocessNext(s, e))
  {
    PreprocessStepEvolves(PreprocessOf(s), s.fatal, e);
    PreprocessMovesEvolve(s, PreprocessStep(PreprocessOf(s), s.fatal, e));
  }

  lemma VideoStepEvolves(v: VideoView, fatal: bool, e: Env)
    ensures var v' := VideoStep(v, fatal, e);
      && QueueEvolves(v.videoFrames, v'.videoFrames) && QueueEvolves(v.encoded, v'.encoded)
      && |v'.videoFrames.items| <= |v.videoFrames.items|
      && v'.broker.closed == v.broker.closed
      && v'.broker.stats.outstandingFrames == v.broker.stats.outstandingFrames
  {
  }

  lemma VideoEvolves(s: State, e: Env)
    ensures Evolves(VideoThread, s, VideoNext(s, e))
  {
    VideoStepEvolves(VideoOf(s), s.fatal, e);
  }

  lemma EncodedEvolves(s: State, e: Env)
    ensures Evolves(EncodedThread, s, EncodedNext(s, e))
  {
    var v, v' := EncodedOf(s), EncodedStep(EncodedOf(s), e);
    assert QueueEvolves(v.videoFrames, v'.videoFrames) && QueueEvolves(v.encoded, v'.encoded);
  }

  lemma NpuStepEvolves(c: Config, v: NpuView, e: Env)
    requires !v.npu.NFail?
    ensures NpuMoves(v, NpuStep(c, v, e))
  {
  }

  ghost predicate NpuMoves(v: NpuView, v': NpuView) {
    && QueueDrains(v.prepared, v'.prepared)
    && QueueEvolves(v.completed, v'.completed) && (v'.completed.stopped ==> v.completed.stopped || v'.npu.NDone?)
    && QueueEvolves(v.freeIn, v'.freeIn) && v'.freeIn.stopped == v.freeIn.stopped
    && QueueEvolves(v.freeOut, v'.freeOut) && v'.freeOut.stopped == v.freeOut.stopped
    && (v'.npu.NFail? ==> v'.npu.n == 0)
  }

  lemma NpuMovesEvolve(s: State, v': NpuView)
    requires NpuMoves(NpuOf(s), v')
    ensures Evolves(NpuThread, s, WithNpu(s, v'))
  {
  }

  lemma NpuEvolves(c: Config, s: State, e: Env)
    requires !s.npu.NFail?
    ensures Evolves(NpuThread, s, NpuNext(c, s, e))
  {
    NpuStepEvolves(c, NpuOf(s), e);
    NpuMovesEvolve(s, NpuStep(c, NpuOf(s), e));
  }

  lemma PostEvolves(s: State)
    ensures Evolves(PostThread, s, PostNext(s))
  {
    var v, v' := PostOf(s), PostStep(PostOf(s));
    assert QueueDrains(v.completed, v'.completed) && QueueEvolves(v.freeOut, v'.freeOut);
  }

  lemma MainEvolves(s: State)
    ensures Evolves(MainThread, s, MainNext(s))
  {
    var v, v' := MainOf(s), MainStep(MainOf(s), ReportOf(s));
    assert QueueEvolves(v.encoded, v'.encoded) && (v.stop ==> v'.stop) && (v.cameraStop ==> v'.cameraStop);
  }

  // Every step of every thread.
  lemma NextEvolves(c: Config, s: State, t: Thread, e: Env)
    requires 0 < s.captured.capacity && 0 < s.videoFrames.capacity
    ensures Evolves(t, s, Next(c, s, t, e))
  {
    if InFailure(t, s) {
      FailureEvolves(c, s, t);
    } else {
      match t
      case CaptureThread => CaptureEvolves(c, s, e);
      case PreprocessThread => PreprocessEvolves(s, e);
      case VideoThread => VideoEvolves(s, e);
      case EncodedThread => EncodedEvolves(s, e);
      case NpuThread => NpuEvolves(c, s, e);
      case PostThread => PostEvolves(s);
      case MainThread => MainEvolves(s);
    }
  }
}
