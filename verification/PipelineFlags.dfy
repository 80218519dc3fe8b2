/**
 The order in which threads stop each other: which flag or closed queue every
 program counter relies on.
 */
module PipelineFlags {
  import opened Pipelines
  import opened PipelineFrames
  import opened PipelineOwnership

  // The first n stores of SignalFailure have been made, by whichever thread.
  ghost predicate FailDone(s: State, n: nat) {
    && (n > 0 ==> s.fatal)
    && (n > 1 ==> s.stop)
    && (n > 2 ==> s.broker.closed)
    && (n > 3 ==> s.cameraStop)
    && (n > 4 ==> s.captured.stopped)
    && (n > 5 ==> s.videoFrames.stopped)
    && (n > 6 ==> s.encoded.stopped)
    && (n > 7 ==> s.prepared.stopped)
    && (n > 8 ==> s.completed.stopped)
    && (n > 9 ==> s.freeIn.stopped)
    && (n > 10 ==> s.freeOut.stopped)
  }

  // Some thread is still inside SignalFailure.
  predicate Failing(s: State) {
    s.cap.CFail? || s.pre.PFail? || s.npu.NFail?
  }

  // A queue closed by a failure was closed after all those before it in the
  // order of SignalFailure.
  ghost predicate FailureOk(s: State) {
    && (s.cap.CFail? ==> s.cap.n <= FAIL_STORES && FailDone(s, s.cap.n))
    && (s.pre.PFail? ==> s.pre.n <= FAIL_STORES && FailDone(s, s.pre.n))
    && (s.npu.NFail? ==> s.npu.n <= FAIL_STORES && FailDone(s, s.npu.n))
    && (s.fatal ==> Failing(s) || FailDone(s, FAIL_STORES))
    && (s.prepared.stopped ==> s.pre.PDone? || FailDone(s, 8))
    && (s.completed.stopped ==> s.npu.NDone? || FailDone(s, 9))
    && (s.freeIn.stopped ==> FailDone(s, 10))
    && (s.freeOut.stopped ==> FailDone(s, 11))
  }

  ghost predicate CaptureOk(c: Config, v: CaptureView) {
    && (v.cap.CClose? ==> (v.cap.n > 0 ==> v.captured.stopped) && (v.cap.n > 1 ==> v.videoFrames.stopped))
    && ((v.cap.CDrainLast? || v.cap.CRequeueLast? || v.cap.CWait? || v.cap.CRequeueWaited? || v.cap.CDone?)
        ==> v.captured.stopped && v.videoFrames.stopped && v.broker.closed)
    && (v.cap.CDone? ==> v.broker.stats.outstandingFrames == 0)
    && (v.cap.CPushVideo? ==> c.video)
  }

  // The preprocess thread leaves its loop only when no frame can arrive any more.
  ghost predicate PreprocessOk(v: PreprocessView) {
    && (((v.pre.PReturn? && v.pre.exit) || v.pre.PDrain? || v.pre.PDrainRelease? || v.pre.PStop? || v.pre.PDone?)
        ==> v.captured.stopped)
    && ((v.pre.PStop? || v.pre.PDone?) ==> v.captured.items == [])
    && (v.pre.PDone? ==> v.prepared.stopped)
  }

  ghost predicate VideoOk(c: Config, v: VideoView) {
    && (v.vid.VFail? ==> v.vid.n <= VIDEO_FAIL_STORES
                         && (v.vid.n > 1 ==> v.videoFrames.stopped) && (v.vid.n > 2 ==> v.encoded.stopped))
    && (c.video && (v.vid.VDrain? || v.vid.VDrainRelease? || v.vid.VDone?) ==> v.videoFrames.stopped)
    && (v.vid.VDone? ==> v.videoFrames.items == [])
    && (!c.video ==> v.vid.VDone?)
  }

  ghost predicate EncodedOk(c: Config, v: EncodedView) {
    && (v.enc.EFail? ==> v.enc.n <= VIDEO_FAIL_STORES
                         && (v.enc.n > 1 ==> v.videoFrames.stopped) && (v.enc.n > 2 ==> v.encoded.stopped))
    && (c.video && (v.enc.EFlush? || v.enc.EDone?) ==> v.encoded.stopped)
    && (!c.video ==> v.enc.EDone?)
  }

  // The NPU thread stops taking frames only after the last prepared one, or in a failure.
  ghost predicate NpuOk(c: Config, v: NpuView, fatal: bool) {
    && ((v.npu.NAbandon? || (v.npu.NReturnOutput? && v.npu.exit) || v.npu.NStop? || v.npu.NDone?)
        ==> fatal || (v.prepared.stopped && v.prepared.items == []))
    && (!c.fused && v.npu.NDone? ==> v.completed.stopped)
    && (c.fused ==> v.completed.items == [] && !v.npu.NPush? && !v.npu.NStop?)
    && (!c.fused ==> !v.npu.NProcess?)
  }

  ghost predicate PostOk(c: Config, v: PostView) {
    && (c.fused ==> v.post.ODone?)
    && (!c.fused && v.post.ODone? ==> v.completed.stopped && v.completed.items == [])
  }

  ghost predicate MainOk(s: State) {
    && (s.stop ==> s.fatal || !(s.main.MIdle? || s.main == MStop(0)))
    && ((s.main.MStop? && s.main.n > 0) ==> s.stop)
    && (s.main.MJoin? ==>
          && s.stop
          && s.main.n <= 4
          && (s.main.n > 0 ==> s.cap.CDone?)
          && (s.main.n > 1 ==> s.vid.VDone?)
          && (s.main.n > 2 ==> s.pre.PDone?)
          && (s.main.n > 3 ==> s.npu.NDone?))
    && ((s.main.MStopEncoded? || s.main.MJoinEncoded? || s.main.MReport? || s.main.MDone?) ==>
          s.stop && s.cap.CDone? && s.vid.VDone? && s.pre.PDone? && s.npu.NDone? && s.post.ODone?)
    && (s.main.MJoinEncoded? ==> s.encoded.stopped)
    && ((s.main.MReport? || s.main.MDone?) ==> s.enc.EDone?)
  }

  ghost predicate FlagsOk(c: Config, s: State) {
    && FailureOk(s)
    && CaptureOk(c, CaptureOf(s)) && PreprocessOk(PreprocessOf(s))
    && VideoOk(c, VideoOf(s)) && EncodedOk(c, EncodedOf(s))
    && NpuOk(c, NpuOf(s), s.fatal) && PostOk(c, PostOf(s))
    && MainOk(s)
  }

  // ----- SignalFailure -----

  // A thread that has ended makes no step.
  predicate Unfinished(t: Thread, s: State) {
    match t
    case CaptureThread => !s.cap.CDone?
    case PreprocessThread => !s.pre.PDone?
    case VideoThread => !s.vid.VDone?
    case EncodedThread => !s.enc.EDone?
    case NpuThread => !s.npu.NDone?
    case PostThread => !s.post.ODone?
    case MainThread => !s.main.MDone?
  }

  // A step outside SignalFailure.
  lemma QuietKeepsFailure(s: State, t: Thread, s': State)
    requires FailureOk(s) && Evolves(t, s, s') && !InFailure(t, s) && Unfinished(t, s)
    ensures FailureOk(s')
    ensures t != MainThread && s'.stop ==> s.stop
  {
  }

  lemma StoreMade(s: State, n: nat)
    requires n < FAIL_STORES && FailDone(s, n)
    ensures FailDone(FailStore(s, n), n + 1)
  {
  }

  // Each queue of the slots is closed by a store of its own, and stop by the second.
  ghost predicate ClosesInOrder(s: State, n: nat, s': State) {
    && (s'.prepared.stopped ==> s.prepared.stopped || n == 7)
    && (s'.completed.stopped ==> s.completed.stopped || n == 8)
    && (s'.freeIn.stopped ==> s.freeIn.stopped || n == 9)
    && (s'.freeOut.stopped ==> s.freeOut.stopped || n == 10)
    && (s'.stop ==> s.stop || n == 1)
  }

  lemma StoreCloses(s: State, n: nat)
    ensures ClosesInOrder(s, n, Stored(s, n))
  {
  }

  lemma FailureCloses(c: Config, s: State, t: Thread)
    requires InFailure(t, s)
    ensures ClosesInOrder(s, StoresMade(t, s), FailureNext(c, s, t))
  {
    StoreCloses(s, StoresMade(t, s));
  }

  lemma FailureAdvances(c: Config, s: State, t: Thread)
    requires FailureOk(s) && InFailure(t, s)
    ensures Advances(s, t, StoresMade(t, s), FailureNext(c, s, t))
  {
    if StoresMade(t, s) < FAIL_STORES {
      StoreMade(s, StoresMade(t, s));
    }
  }

  ghost predicate Advances(s: State, t: Thread, n: nat, s': State) {
    if n < FAIL_STORES then InFailure(t, s') && StoresMade(t, s') == n + 1 && FailDone(s', n + 1)
    else !InFailure(t, s') && FailDone(s', n)
  }

  // The next store, or the way on after the last one.
  lemma StoreKeepsFailure(s: State, t: Thread, n: nat, s': State)
    requires FailureOk(s) && InFailure(t, s) && n == StoresMade(t, s) && OthersStay(t, s, s')
    requires FlagsRise(s, s') && QueuesEvolve(s, s')
    requires Advances(s, t, n, s') && ClosesInOrder(s, n, s')
    requires s.pre.PDone? ==> s'.pre.PDone?
    requires s.npu.NDone? ==> s'.npu.NDone?
    ensures FailureOk(s') && (s'.stop ==> s.stop || s.fatal)
  {
  }

  lemma FailureKeepsFailure(c: Config, s: State, t: Thread)
    requires FailureOk(s) && InFailure(t, s)
    ensures FailureOk(FailureNext(c, s, t))
    ensures FailureNext(c, s, t).stop ==> s.stop || s.fatal
  {
    FailureEvolves(c, s, t);
    FailureCloses(c, s, t);
    FailureAdvances(c, s, t);
    StoreKeepsFailure(s, t, StoresMade(t, s), FailureNext(c, s, t));
  }

  lemma NextKeepsFailure(c: Config, s: State, t: Thread, e: Env)
    requires 0 < s.captured.capacity && 0 < s.videoFrames.capacity
    requires FailureOk(s) && Ready(s, t)
    ensures FailureOk(Next(c, s, t, e))
    ensures t != MainThread && Next(c, s, t, e).stop ==> s.stop || s.fatal
  {
    if InFailure(t, s) {
      FailureKeepsFailure(c, s, t);
    } else {
      NextEvolves(c, s, t, e);
      QuietKeepsFailure(s, t, Next(c, s, t, e));
    }
  }

  // ----- what a step leaves to the other threads -----

  lemma OthersKept(c: Config, s: State, t: Thread, s': State)
    requires FlagsOk(c, s) && Evolves(t, s, s')
    ensures t != CaptureThread ==> CaptureOk(c, CaptureOf(s'))
    ensures t != PreprocessThread ==> PreprocessOk(PreprocessOf(s'))
    ensures t != VideoThread ==> VideoOk(c, VideoOf(s'))
    ensures t != EncodedThread ==> EncodedOk(c, EncodedOf(s'))
    ensures t != NpuThread ==> NpuOk(c, NpuOf(s'), s'.fatal)
    ensures t != PostThread ==> PostOk(c, PostOf(s'))
  {
  }

  lemma MainKept(s: State, t: Thread, s': State)
    requires MainOk(s) && Evolves(t, s, s') && Unfinished(t, s) && t != MainThread
    requires s'.stop ==> s.stop || s.fatal
    ensures MainOk(s')
  {
  }

  // ----- what a thread does for itself -----

  lemma CaptureKeepsOk(c: Config, v: CaptureView, stop: bool, cameraStop: bool, e: Env)
    requires 0 < v.captured.capacity && 0 < v.videoFrames.capacity && !v.cap.CFail?
    requires CaptureOk(c, v) && RequestOk(v.cap) && CaptureReady(v)
    ensures CaptureOk(c, CaptureStep(c, v, stop, cameraStop, e))
  {
  }

  lemma PreprocessKeepsOk(v: PreprocessView, fatal: bool, e: Env)
    requires PreprocessOk(v) && PreprocessReady(v) && !v.pre.PFail?
    requires v.freeIn.stopped || v.prepared.stopped ==> v.captured.stopped
    ensures PreprocessOk(PreprocessStep(v, fatal, e))
  {
  }

  lemma VideoKeepsOk(c: Config, v: VideoView, fatal: bool, e: Env)
    requires VideoOk(c, v) && VideoReady(v)
    ensures VideoOk(c, VideoStep(v, fatal, e))
  {
  }

  lemma EncodedKeepsOk(c: Config, v: EncodedView, e: Env)
    requires EncodedOk(c, v) && EncodedReady(v)
    ensures EncodedOk(c, EncodedStep(v, e))
  {
  }

  lemma NpuKeepsOk(c: Config, v: NpuView, fatal: bool, e: Env)
    requires NpuOk(c, v, fatal) && NpuReady(v) && !v.npu.NFail?
    requires v.freeOut.stopped || v.completed.stopped ==> fatal
    ensures NpuOk(c, NpuStep(c, v, e), fatal)
  {
  }

  lemma PostKeepsOk(c: Config, v: PostView)
    requires PostOk(c, v) && PostReady(v)
    ensures PostOk(c, PostStep(v))
  {
  }

  lemma MainKeepsOk(s: State)
    requires MainOk(s) && MainReady(s)
    ensures MainOk(MainNext(s))
  {
  }

  // After its last store a failed thread finds every queue closed.
  lemma FailureKeepsOk(c: Config, s: State, t: Thread)
    requires FlagsOk(c, s) && RequestOk(s.cap) && InFailure(t, s)
    ensures var s' := FailureNext(c, s, t);
      CaptureOk(c, CaptureOf(s')) && PreprocessOk(PreprocessOf(s')) && NpuOk(c, NpuOf(s'), s'.fatal)
  {
    FailureEvolves(c, s, t);
    OthersKept(c, s, t, FailureNext(c, s, t));
  }

  ghost predicate OwnOk(c: Config, t: Thread, s: State) {
    match t
    case CaptureThread => CaptureOk(c, CaptureOf(s))
    case PreprocessThread => PreprocessOk(PreprocessOf(s))
    case VideoThread => VideoOk(c, VideoOf(s))
    case EncodedThread => EncodedOk(c, EncodedOf(s))
    case NpuThread => NpuOk(c, NpuOf(s), s.fatal)
    case PostThread => PostOk(c, PostOf(s))
    case MainThread => MainOk(s)
  }

  lemma OwnKept(c: Config, s: State, t: Thread, e: Env)
    requires 0 < s.captured.capacity && 0 < s.videoFrames.capacity
    requires FlagsOk(c, s) && RequestOk(s.cap) && Ready(s, t)
    ensures OwnOk(c, t, Next(c, s, t, e))
  {
    if InFailure(t, s) {
      FailureKeepsOk(c, s, t);
    } else {
      match t
      case CaptureThread => CaptureKeepsOk(c, CaptureOf(s), s.stop, s.cameraStop, e);
      case PreprocessThread => PreprocessKeepsOk(PreprocessOf(s), s.fatal, e);
      case VideoThread => VideoKeepsOk(c, VideoOf(s), s.fatal, e);
      case EncodedThread => EncodedKeepsOk(c, EncodedOf(s), e);
      case NpuThread => NpuKeepsOk(c, NpuOf(s), s.fatal, e);
      case PostThread => PostKeepsOk(c, PostOf(s));
      case MainThread => MainKeepsOk(s);
    }
  }

  // ----- the main result -----

  lemma StepKeepsFlags(c: Config, s: State, t: Thread, s': State)
    requires FlagsOk(c, s) && Evolves(t, s, s') && Unfinished(t, s)
    requires FailureOk(s') && OwnOk(c, t, s')
    requires t != MainThread && s'.stop ==> s.stop || s.fatal
    ensures FlagsOk(c, s')
  {
    OthersKept(c, s, t, s');
    if t != MainThread {
      MainKept(s, t, s');
    }
  }

  lemma NextKeepsFlags(c: Config, s: State, t: Thread, e: Env)
    requires OwnershipOk(c, s) && FlagsOk(c, s) && Ready(s, t)
    ensures FlagsOk(c, Next(c, s, t, e))
  {
    NextEvolves(c, s, t, e);
    NextKeepsFailure(c, s, t, e);
    OwnKept(c, s, t, e);
    StepKeepsFlags(c, s, t, Next(c, s, t, e));
  }

  lemma InitialFlags(c: Config, session: nat, headers: nat)
    ensures FlagsOk(c, Initial(c, session, headers))
  {
  }
}
