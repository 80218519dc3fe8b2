/** The buffer state machine of the camera: who owns each driver buffer. */
module V4l2Cameras {
  import opened Wrappers
  import opened CaptureBuffers

  datatype Ownership = Available | Queued | Dequeued

  datatype Buffer = Buffer(state: Ownership, activeKey: Option<Key>)

  datatype Camera = Camera(
    buffers: seq<Buffer>, outstanding: int, streaming: bool, session: nat, nextFrame: nat)

  function SetBuffer(c: Camera, i: nat, b: Buffer, outstanding: int): Camera
    requires i < |c.buffers|
  {
    c.(buffers := c.buffers[i := b], outstanding := outstanding)
  }

  // `qbuf` is the answer of the driver to VIDIOC_QBUF.
  function QueueBuffer(c: Camera, i: nat, qbuf: bool): (r: (Camera, bool)) {
    if i >= |c.buffers| || c.buffers[i].state == Queued || !qbuf then (c, false)
    else
      (SetBuffer(c, i, Buffer(Queued, None),
                 c.outstanding - if c.buffers[i].state == Dequeued then 1 else 0), true)
  }

  // Requeue accepts exactly the request for the frame that is out on that buffer.
  predicate Accepts(c: Camera, request: Request) {
    && c.streaming
    && request.key.index < |c.buffers|
    && c.buffers[request.key.index] == Buffer(Dequeued, Some(request.key))
    && request.identity.session == request.key.session
    && request.identity.frame == request.key.frame
  }

  function Requeue(c: Camera, request: Request, qbuf: bool): (r: (Camera, bool)) {
    if Accepts(c, request) then QueueBuffer(c, request.key.index, qbuf) else (c, false)
  }

  function RequeueByIndex(c: Camera, i: nat, qbuf: bool): (r: (Camera, bool)) {
    if !c.streaming || i >= |c.buffers| || c.buffers[i].state != Dequeued then (c, false)
    else QueueBuffer(c, i, qbuf)
  }

  // VIDIOC_DQBUF handed out buffer `i`; false stands for the thrown runtime_error.
  function Dequeue(c: Camera, i: nat): (r: (Camera, bool)) {
    if i >= |c.buffers| || c.buffers[i].state != Queued then (c, false)
    else (SetBuffer(c, i, Buffer(Dequeued, None), c.outstanding + 1), true)
  }

  // BuildFrameView: the driver's view, stamped with the session and frame number.
  function Stamp(c: Camera, view: Frame, i: nat): Frame {
    view.(identity := view.identity.(session := c.session, frame := c.nextFrame), index := i)
  }

  // The second critical section of Capture records the key of the frame.
  function AttachKey(c: Camera, view: Frame, i: nat): (r: (Camera, bool)) {
    if i >= |c.buffers| || c.buffers[i].state != Dequeued then
      (c.(nextFrame := c.nextFrame + 1), false)
    else
      (SetBuffer(c, i, Buffer(Dequeued, Some(KeyOf(Stamp(c, view, i)))), c.outstanding)
       .(nextFrame := c.nextFrame + 1), true)
  }

  function StopStreaming(c: Camera): Camera {
    c.(buffers := seq(|c.buffers|, i => Buffer(Available, None)), outstanding := 0, streaming := false)
  }

  function Streaming(buffers: nat, session: nat): Camera {
    Camera(seq(buffers, i => Buffer(Queued, None)), 0, true, session, 0)
  }

  function Out(buffers: seq<Buffer>): nat {
    if buffers == [] then 0
    else (if buffers[0].state == Dequeued then 1 else 0) + Out(buffers[1..])
  }

  lemma {:induction false} OutUpdate(buffers: seq<Buffer>, i: nat, b: Buffer)
    requires i < |buffers|
    ensures Out(buffers[i := b]) == Out(buffers)
              - (if buffers[i].state == Dequeued then 1 else 0) + (if b.state == Dequeued then 1 else 0)
  {
    if i == 0 {
      assert buffers[i := b][1..] == buffers[1..];
    } else {
      assert buffers[i := b][1..] == buffers[1..][i - 1 := b];
      OutUpdate(buffers[1..], i - 1, b);
    }
  }

  lemma {:induction false} NoneOut(buffers: seq<Buffer>)
    ensures Out(buffers) == 0 <==> forall i :: 0 <= i < |buffers| ==> buffers[i].state != Dequeued
  {
    if buffers != [] {
      NoneOut(buffers[1..]);
      assert forall i :: 1 <= i < |buffers| ==> buffers[i] == buffers[1..][i - 1];
      assert forall i :: 0 <= i < |buffers| - 1 ==> buffers[1..][i] == buffers[i + 1];
    }
  }

  // The outstanding counter counts the buffers the driver does not own.
  ghost predicate OutCounted(c: Camera) {
    c.outstanding == Out(c.buffers)
  }

  lemma StreamingCounted(buffers: nat, session: nat)
    ensures OutCounted(Streaming(buffers, session))
  {
    NoneOut(Streaming(buffers, session).buffers);
  }

  lemma StopCounted(c: Camera)
    ensures OutCounted(StopStreaming(c))
  {
    NoneOut(StopStreaming(c).buffers);
  }

  lemma StepsCounted(c: Camera, request: Request, view: Frame, i: nat, qbuf: bool)
    requires OutCounted(c)
    ensures OutCounted(QueueBuffer(c, i, qbuf).0)
    ensures OutCounted(Requeue(c, request, qbuf).0)
    ensures OutCounted(RequeueByIndex(c, i, qbuf).0)
    ensures OutCounted(Dequeue(c, i).0)
    ensures OutCounted(AttachKey(c, view, i).0)
  {
    if i < |c.buffers| {
      OutUpdate(c.buffers, i, Buffer(Queued, None));
      OutUpdate(c.buffers, i, Buffer(Dequeued, None));
      OutUpdate(c.buffers, i, Buffer(Dequeued, Some(KeyOf(Stamp(c, view, i)))));
    }
    if request.key.index < |c.buffers| {
      OutUpdate(c.buffers, request.key.index, Buffer(Queued, None));
    }
  }

  class V4L2Camera {
    const mappings: array<Buffer>
    var outstanding: int
    var streaming: bool
    var nextSession: nat
    var session: nat
    var nextFrame: nat

    ghost predicate Valid()
      reads this, mappings
    {
      OutCounted(Model())
    }

    ghost function Model(): Camera
      reads this, mappings
    {
      Camera(mappings[..], outstanding, streaming, session, nextFrame)
    }

    // Open: the buffers are mapped and belong to nobody yet.
    constructor (bufferCount: nat)
      requires 2 <= bufferCount // Open rejects fewer
      ensures Valid() && fresh(mappings) && mappings.Length == bufferCount && !streaming
      ensures forall i :: 0 <= i < bufferCount ==> mappings[i] == Buffer(Available, None)
    {
      mappings := new Buffer[bufferCount](_ => Buffer(Available, None));
      outstanding, streaming, nextSession, session, nextFrame := 0, false, 1, 0, 0;
      new;
      NoneOut(mappings[..]);
    }

    // QueueBufferLocked.
    method QueueLocked(i: nat, qbuf: bool) returns (ok: bool)
      requires Valid()
      modifies this`outstanding, mappings
      ensures Valid() && (Model(), ok) == QueueBuffer(old(Model()), i, qbuf)
    {
      if i >= mappings.Length || mappings[i].state == Queued || !qbuf {
        return false;
      }
      OutUpdate(mappings[..], i, Buffer(Queued, None));
      if mappings[i].state == Dequeued {
        outstanding := outstanding - 1;
      }
      mappings[i] := Buffer(Queued, None);
      ok := true;
    }

    // Start, with QueueAllBuffers unfolded; every QBUF succeeds.
    method Start()
      requires Valid() && !streaming
      requires forall i :: 0 <= i < mappings.Length ==> mappings[i] == Buffer(Available, None)
      modifies this, mappings
      ensures Valid() && Model() == Streaming(mappings.Length, old(nextSession))
      ensures nextSession == old(nextSession) + 1
    {
      outstanding := 0;
      NoneOut(mappings[..]);
      var i := 0;
      while i < mappings.Length
        invariant 0 <= i <= mappings.Length
        invariant Valid() && outstanding == 0 && nextSession == old(nextSession)
        invariant forall j :: 0 <= j < mappings.Length ==>
                    mappings[j] == Buffer(if j < i then Queued else Available, None)
      {
        var ok := QueueLocked(i, true);
        i := i + 1;
      }
      streaming := true;
      session := nextSession;
      nextSession := nextSession + 1;
      nextFrame := 0;
      assert mappings[..] == Streaming(mappings.Length, session).buffers;
    }

    method RequeueFrame(request: Request, qbuf: bool) returns (ok: bool)
      requires Valid()
      modifies this`outstanding, mappings
      ensures Valid() && (Model(), ok) == Requeue(old(Model()), request, qbuf)
    {
      var i := request.key.index;
      if !streaming || i >= mappings.Length {
        return false;
      }
      var mapping := mappings[i];
      if mapping.state != Dequeued || mapping.activeKey.None? || mapping.activeKey.value != request.key
         || request.identity.session != request.key.session
         || request.identity.frame != request.key.frame {
        return false;
      }
      ok := QueueLocked(i, qbuf);
    }

    method RequeueByIndexForInternalError(i: nat, qbuf: bool) returns (ok: bool)
      requires Valid()
      modifies this`outstanding, mappings
      ensures Valid() && (Model(), ok) == RequeueByIndex(old(Model()), i, qbuf)
    {
      if !streaming || i >= mappings.Length || mappings[i].state != Dequeued {
        return false;
      }
      ok := QueueLocked(i, qbuf);
    }

    // The critical section around VIDIOC_DQBUF, which handed out buffer `i`.
    method DequeueLocked(i: nat) returns (ok: bool)
      requires Valid()
      modifies this`outstanding, mappings
      ensures Valid() && (Model(), ok) == Dequeue(old(Model()), i)
    {
      if i >= mappings.Length || mappings[i].state != Queued {
        return false;
      }
      OutUpdate(mappings[..], i, Buffer(Dequeued, None));
      mappings[i] := Buffer(Dequeued, None);
      outstanding := outstanding + 1;
      ok := true;
    }

    // BuildFrameView and the critical section that records the active key.
    method BuildAndAttach(view: Frame, i: nat) returns (frame: Option<Frame>)
      requires Valid()
      modifies this`nextFrame, mappings
      ensures Valid() && Model() == AttachKey(old(Model()), view, i).0
      ensures frame == if AttachKey(old(Model()), view, i).1
                       then Some(Stamp(old(Model()), view, i)) else None
    {
      var built := view.(identity := view.identity.(session := session, frame := nextFrame), index := i);
      nextFrame := nextFrame + 1;
      if i >= mappings.Length || mappings[i].state != Dequeued {
        return None;
      }
      OutUpdate(mappings[..], i, Buffer(Dequeued, Some(KeyOf(built))));
      mappings[i] := Buffer(Dequeued, Some(KeyOf(built)));
      frame := Some(built);
    }

    method Stop()
      requires Valid()
      modifies this`outstanding, this`streaming, mappings
      ensures Valid()
      ensures Model() == if old(streaming) then StopStreaming(old(Model())) else old(Model())
    {
      if !streaming {
        return;
      }
      streaming := false;
      var i := 0;
      while i < mappings.Length
        invariant 0 <= i <= mappings.Length
        invariant forall j :: 0 <= j < i ==> mappings[j] == Buffer(Available, None)
        invariant !streaming
      {
        mappings[i] := Buffer(Available, None);
        i := i + 1;
      }
      outstanding := 0;
      StopCounted(old(Model()));
      assert mappings[..] == StopStreaming(old(Model())).buffers;
    }
  }
}
