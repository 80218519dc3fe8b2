# Verified model of the visionram capture, link and media logic

This project models the parts of visionram whose correctness depends on whole
runs rather than on one function, and proves what they keep.

* **Zero-copy capture.** A V4L2 buffer leaves the driver, is published as one or
  two leases, travels through bounded queues to the worker threads, and returns
  to the driver after its last release. `BoundedQueues`, `CaptureBuffers`,
  `CaptureBrokers` and `V4l2Cameras` hold the ring queue, the lease broker and
  the buffer states of the camera as classes over arrays. `Pipelines` is the
  system of the seven threads (capture, preprocess, video, encoded packets, NPU,
  postprocess and the caller of `Stop`): one step is one critical section or one
  flag store, a blocking call is a step that is ready only when its wait is over,
  and the driver, the NPU, the encoder and the sinks answer as they like. The step
  of a thread is a function of the part of the state that thread works on, and
  `PipelineFrames` says once what it leaves to the others. `PipelineOwnership`,
  `PipelineFlags` and `PipelineSlots` prove the inductive invariant;
  `PipelineShutdown` draws the conclusions, among them freedom from deadlock,
  termination, and that everything comes back.
* **UART link.** `UartCrc`, `UartFrames`, `UartParsers`, `UartMessages`,
  `UartSequences`, `UartReliable` and `UartHealth` are the protocol pieces;
  `UartLinks` is the I/O loop as a step system, `UartLinkLoop` the object that
  performs those steps in place, and `UartLinkSafety` the invariants of all runs.
  The byte stuffing follows section 4.2 of RFC 1662 with the two escapes 0x7E
  and 0x7D only, sequence comparison section 3.2 of RFC 1982.
* **Media timeline.** `MediaClocks` is the sample clock in exact floor arithmetic
  over 64-bit words, `PcmRechunk` the re-slicing of PCM chunks into codec frames.
* **History-defined machines.** `TargetTracker` is the acquire and lost
  hysteresis, `AccessUnits` the assembly of HEVC access units with parameter-set
  injection (Annex B byte stream, NAL types 32, 33 and 34 of Table 7-1 of ITU-T
  H.265).

## How the parts fit

For each object that the source updates in place there is a class with the same
fields, a function `Model` that gives its state as a value, and methods proved to
make exactly the transition of a specification function on that value. The
properties are proved about the specification functions, over arbitrary sequences
of operations. The pipeline uses the same specification functions for its queues,
its broker and its camera, so what the classes implement is what the threads are
proved to use safely. `ShiftRegisters` and `Transducers` carry two inductions over
abstract states, `Rings` the circular array under the queue and the completion
list, `Arithmetic` the facts about division, `Octets` and `Wrappers` the shared types.

Where a run is described by history (frames started, samples submitted, fragments
of a unit, log of a record), the history fields are written and never read by the
modelled code.

Some properties hold although the code looks as if it broke them:

* `reliable_.Cancel()` on reopening does not release the busy flag. It need not:
  `ReopenCancelsNothing` shows that a closed port has nothing outstanding.
* The branch of `ReleaseLease` for a full completion ring returns after it has
  changed the slot. It is modelled, and `GrantedInv` shows that no release of a
  lease that is out reaches it.
* The parameter-set scan skips over each start code it meets, so it may read the
  junction of configuration and data differently from either alone.
  `ScanOfPrefix` shows that it still finds whatever it finds in the configuration.

One property does not hold: `PredictAudioMonoNs` adds two signed 64-bit times without
a check. `PredictionCanOverflow` gives an input, `PredictionFits` the exact condition,
and the outcome `Overflow` tells such a call apart from one that throws.

Two decisions of the model allow more runs than the code: the camera may still
deliver a frame after it was asked to stop, and nobody needs to call `Stop`.
A request queued between the poll of the transaction and the look at the pending
request, inside one pass of `Schedule`, is a parameter of that step.

## Model

| member | source | states |
|---|---|---|
| `PipelineShutdown.TraceInv` | visionram/src/pipeline/inference_pipeline.cpp:304-842 | Every state of every interleaving of the seven threads, from the state `Start` leaves, satisfies the whole invariant (ownership, flags, slots, report) |
| `PipelineShutdown.NextKeepsInv` | visionram/src/pipeline/inference_pipeline.cpp:304-842 | Every single step of any thread, whatever driver, NPU, encoder and sinks answer, keeps that invariant |
| `PipelineShutdown.BuffersAreOwned` | visionram/src/capture/v4l2_camera.cpp:306-423 | In every reachable state each buffer is queued at the driver, in the capture thread's hand, or in an occupied broker slot, and only one of them; each unreleased lease has exactly one holder; `Requeue` never rejects on key or state; a captured frame never meets an occupied slot |
| `PipelineShutdown.WorkersReadLiveFrames` | visionram/src/pipeline/inference_pipeline.cpp:415-456 | Whoever works on a frame (preprocessing or encoding) holds a lease the broker honours, and the driver does not own that buffer meanwhile |
| `PipelineShutdown.SlotsAreConserved` | visionram/src/pipeline/inference_pipeline.cpp:104-115 | No input or output slot is ever in two places; until a failure each is in exactly one; whoever holds a slot finds room in the free queue when returning it |
| `PipelineShutdown.EverySuccessIsProcessed` | visionram/src/pipeline/inference_pipeline.cpp:665-842 | In split and fused topology alike, a run that ends without a fatal error hands every successful inference to `ProcessCompletedFrame` exactly once, the last one included |
| `PipelineShutdown.ShutdownNeverBlocks` | visionram/src/pipeline/inference_pipeline.cpp:176-267 | Once stop is requested, by `Stop` or by `SignalFailure`, some unfinished thread can always go on: no interleaving deadlocks |
| `PipelineShutdown.EveryStepDescends` | visionram/src/pipeline/inference_pipeline.cpp:204-413 | Once stop is requested, every step of every thread decreases a pair of natural numbers in the lexicographic order |
| `PipelineShutdown.ShutdownTerminates` | visionram/src/pipeline/inference_pipeline.cpp:204-267 | Every run from a state in which stop is requested is finite, whatever the schedule and the environment |
| `PipelineShutdown.ShutdownEndsFinished` | visionram/src/pipeline/inference_pipeline.cpp:204-267 | Where such a run ends, every worker has finished, and `Stop`, if called, has returned |
| `PipelineShutdown.EverythingComesBack` | visionram/src/pipeline/inference_pipeline.cpp:235-267 | Once the capture thread is done all buffers are back at the driver and no frame or lease is outstanding; the three numbers `Stop` reports are zero |
| `PipelineFrames.NextEvolves` | visionram/src/pipeline/inference_pipeline.cpp:176-842 | Whatever a step of a thread does, the other threads stay where they are, flags only rise, closed queues only drain and no queue outgrows its capacity; only the capture thread moves buffers, only the three slot threads move slots, and outside `SignalFailure` no thread closes a slot queue it does not feed |
| `PipelineOwnership.NextKeepsOwnership` | visionram/src/pipeline/inference_pipeline.cpp:269-413 | Every step of every thread keeps each buffer in one place and each unreleased lease with one holder |
| `PipelineOwnership.InitialOwnership` | visionram/src/pipeline/inference_pipeline.cpp:67-174 | The state in which `Start` leaves the pipeline has that property |
| `PipelineFlags.NextKeepsFlags` | visionram/src/pipeline/inference_pipeline.cpp:176-202 | Every step keeps the order of closing: a queue closed by a failure was closed after all those before it in `SignalFailure`, a downstream queue is otherwise closed only by its finished producer, and a fatal flag means that the failure is under way or complete |
| `PipelineFlags.InitialFlags` | visionram/src/pipeline/inference_pipeline.cpp:131-162 | The start state has that property |
| `PipelineSlots.NextKeepsSlots` | visionram/src/pipeline/inference_pipeline.cpp:507-842 | Every step keeps the slots exclusive, and successes equal to processed frames plus those in flight while there is no fatal error |
| `PipelineSlots.InitialSlots` | visionram/src/pipeline/inference_pipeline.cpp:104-115 | The start state holds every slot exactly once |
| `BoundedQueues.ExecuteKeepsOrder` | visionram/include/pipeline/bounded_queue.h:32-123 | One operation of any kind: queued items followed by accepted ones are the items that left followed by those still queued, in this order |
| `BoundedQueues.FirstInFirstOut` | visionram/include/pipeline/bounded_queue.h:32-123 | Any interleaving of operations: the items that left, by a pop or an eviction, followed by the queued ones, are the accepted ones in order |
| `BoundedQueues.CountersCount` | visionram/include/pipeline/bounded_queue.h:134-166 | Over any run pushed counts the accepted items, and popped plus replaced count the items that left |
| `BoundedQueues.StoppedOnlyDrains` | visionram/include/pipeline/bounded_queue.h:32-123 | After `Stop` nothing is accepted any more and the queue only drains, in order |
| `BoundedQueues.BoundedQueue.constructor` | visionram/include/pipeline/bounded_queue.h:22-27 | A new ring is the empty queue of that capacity; the constructor refuses zero |
| `BoundedQueues.BoundedQueue.PushUnlocked` | visionram/include/pipeline/bounded_queue.h:152-158 | Overwrites the ring cell at the tail so that the value becomes the last item, and raises the counters |
| `BoundedQueues.BoundedQueue.PopUnlocked` | visionram/include/pipeline/bounded_queue.h:160-166 | Vacates the ring cell at the head and hands back the oldest item |
| `BoundedQueues.BoundedQueue.TryPush` | visionram/include/pipeline/bounded_queue.h:32-40 | Refused exactly when stopped or full; otherwise the item is appended |
| `BoundedQueues.BoundedQueue.WaitPush` | visionram/include/pipeline/bounded_queue.h:42-54 | Once its wait is over, refused only when stopped |
| `BoundedQueues.BoundedQueue.PushLatest` | visionram/include/pipeline/bounded_queue.h:58-84 | Never blocks; hands back exactly the evicted oldest item when full, the rejected item when stopped, and nothing otherwise |
| `BoundedQueues.BoundedQueue.TryPop` | visionram/include/pipeline/bounded_queue.h:86-97 | Hands back the oldest item, or nothing when there is none |
| `BoundedQueues.BoundedQueue.WaitPop` | visionram/include/pipeline/bounded_queue.h:99-114 | Ends without an item only when the queue is stopped and empty |
| `BoundedQueues.BoundedQueue.Stop` | visionram/include/pipeline/bounded_queue.h:116-123 | Marks the queue as stopped and keeps its items |
| `CaptureBuffers.PublishInv` | visionram/src/capture/capture_buffer.cpp:270-364 | `Publish`, granted or refused, keeps the broker invariant: counters equal sums over the slots, and the completion list holds exactly the fully released slots, each once |
| `CaptureBuffers.PublishGrants` | visionram/src/capture/capture_buffer.cpp:314-363 | An accepted frame has exactly the leases that were asked for, and no other lease changes |
| `CaptureBuffers.PublishHolds` | visionram/src/capture/capture_buffer.cpp:297-341 | A frame is accepted only when the broker does not hold its key yet, and then it does; a refusal changes no held key |
| `CaptureBuffers.ReleaseInv` | visionram/src/capture/capture_buffer.cpp:45-104 | A release succeeds if and only if that lease is out, and keeps the broker invariant either way |
| `CaptureBuffers.GrantedInv` | visionram/src/capture/capture_buffer.cpp:77-97 | The release of a lease that is out always succeeds: the branch for a full completion ring is unreachable |
| `CaptureBuffers.ReleaseTakes` | visionram/src/capture/capture_buffer.cpp:59-75 | A release takes away that lease and no other |
| `CaptureBuffers.ReleaseKeeps` | visionram/src/capture/capture_buffer.cpp:45-104 | A release never drops a frame from its slot |
| `CaptureBuffers.PopInv` | visionram/src/capture/capture_buffer.cpp:125-154 | Popping a completion keeps the broker invariant |
| `CaptureBuffers.PopFrees` | visionram/src/capture/capture_buffer.cpp:125-154 | A popped request belongs to a slot whose every lease was released; exactly that slot is freed, and no lease changes |
| `CaptureBuffers.PopHolds` | visionram/src/capture/capture_buffer.cpp:125-154 | Exactly the popped key stops being held |
| `CaptureBuffers.SomeLeaseIsOut` | visionram/src/capture/capture_buffer.cpp:372-386 | While a frame is out and no completion is listed, some lease is still out, so a waiter has someone to wait for |
| `CaptureBuffers.EveryFrameIsAccounted` | visionram/src/capture/capture_buffer.cpp:45-154 | After any operations every accepted frame is still in its slot or was handed out for requeueing, counted with multiplicity: none lost, none twice |
| `CaptureBuffers.RequeuedAtMostOnce` | visionram/src/capture/capture_buffer.cpp:125-154 | From a new broker, no key is handed out more often than it was accepted |
| `CaptureBuffers.WaitEndsOnlyWhenEmpty` | visionram/src/capture/capture_buffer.cpp:372-386 | A wait that is over yields no request if and only if the broker is closed and every slot is vacant |
| `CaptureBrokers.FrameLease.Release` | visionram/src/capture/capture_buffer.cpp:226-246 | Succeeds exactly for an armed, unreleased lease; a second release is only counted; the lease is invalid afterwards |
| `CaptureBrokers.FrameLease.Abandon` | visionram/src/capture/capture_buffer.cpp:195-200 | The destructor gives back a lease that is still out, and does nothing otherwise |
| `CaptureBrokers.FrameLease.GetFrame` | visionram/src/capture/capture_buffer.cpp:219-224 | A valid lease is never stale: it yields the frame in the slot of its key; an invalid lease yields none |
| `CaptureBrokers.CaptureBufferBroker.constructor` | visionram/src/capture/capture_buffer.cpp:258-264 | A new broker is empty and has issued no lease |
| `CaptureBrokers.CaptureBufferBroker.RecordDuplicateRelease` | visionram/src/capture/capture_buffer.cpp:106-109 | Counts the attempt and changes nothing else |
| `CaptureBrokers.CaptureBufferBroker.ReleaseSlot` | visionram/src/capture/capture_buffer.cpp:45-104 | The in-place release on slots and completion ring is the specified release, with the branch for a full ring |
| `CaptureBrokers.CaptureBufferBroker.LookUp` | visionram/src/capture/capture_buffer.cpp:111-123 | Finds a frame exactly when the broker holds that key, and it is the one in its slot |
| `CaptureBrokers.CaptureBufferBroker.PopLocked` | visionram/src/capture/capture_buffer.cpp:125-154 | The in-place pop of the ring is the specified pop, and every lease object stays truthful |
| `CaptureBrokers.CaptureBufferBroker.TryPopRequeue` | visionram/src/capture/capture_buffer.cpp:366-370 | As `PopLocked` |
| `CaptureBrokers.CaptureBufferBroker.WaitPopRequeue` | visionram/src/capture/capture_buffer.cpp:372-386 | Once its wait is over, no request means closed and every slot vacant |
| `CaptureBrokers.CaptureBufferBroker.Close` | visionram/src/capture/capture_buffer.cpp:388-401 | Marks the broker closed and keeps its frames |
| `CaptureBrokers.CaptureBufferBroker.Publish` | visionram/src/capture/capture_buffer.cpp:270-364 | Returns lease objects exactly for the requested consumers of an accepted frame, fresh, valid, with its key, and adds no others to the leases it must honour |
| `V4l2Cameras.StepsCounted` | visionram/src/capture/v4l2_camera.cpp:306-423 | Every buffer operation, accepted or refused, keeps the outstanding counter equal to the number of dequeued buffers |
| `V4l2Cameras.StreamingCounted` | visionram/src/capture/v4l2_camera.cpp:340-372 | It is so when streaming starts |
| `V4l2Cameras.StopCounted` | visionram/src/capture/v4l2_camera.cpp:665-682 | It is so after streaming stops |
| `V4l2Cameras.V4L2Camera.constructor` | visionram/src/capture/v4l2_camera.cpp:220-304 | Before streaming every buffer is available |
| `V4l2Cameras.V4L2Camera.QueueLocked` | visionram/src/capture/v4l2_camera.cpp:306-338 | Queues a buffer unless it is out of range, already queued, or refused by the driver; forgets its key |
| `V4l2Cameras.V4L2Camera.Start` | visionram/src/capture/v4l2_camera.cpp:340-372 | Every buffer is queued, nothing is outstanding, and the session number is new |
| `V4l2Cameras.V4L2Camera.RequeueFrame` | visionram/src/capture/v4l2_camera.cpp:406-423 | Accepts exactly a request that carries the remembered key of a dequeued buffer and a matching identity |
| `V4l2Cameras.V4L2Camera.RequeueByIndexForInternalError` | visionram/src/capture/v4l2_camera.cpp:396-404 | Gives back a dequeued buffer by its index alone |
| `V4l2Cameras.V4L2Camera.DequeueLocked` | visionram/src/capture/v4l2_camera.cpp:550-570 | Takes a queued buffer and remembers no key yet; any other index is refused |
| `V4l2Cameras.V4L2Camera.BuildAndAttach` | visionram/src/capture/v4l2_camera.cpp:577-599 | Numbers the frame in its session and remembers its key |
| `V4l2Cameras.V4L2Camera.Stop` | visionram/src/capture/v4l2_camera.cpp:665-682 | Every buffer becomes available and nothing is outstanding |
| `UartCrc.ShiftByte` | visionram/src/control/uart_protocol.cpp:16-22 | The eight word-level shifts of the inner loop are eight shifts of the bit-serial register |
| `UartCrc.Crc16CcittFalse` | visionram/src/control/uart_protocol.cpp:7-25 | The table-free byte loop computes the bit-serial CRC of the message bits, most significant first, from 0xFFFF |
| `UartCrc.SixteenStepsInjective` | visionram/src/control/uart_protocol.cpp:13-24 | From any register value, distinct bit strings of the same length up to 16 give distinct register values |
| `UartCrc.BurstDetected` | visionram/src/control/uart_protocol.cpp:7-25 | Two messages that differ, and only within 16 consecutive bits, have different checksums |
| `UartFrames.TypeOfCode` | visionram/include/control/uart_protocol.h:28-45 | Codes 1 to 11 name exactly the eleven message types; every other code names none |
| `UartFrames.Read16` | visionram/include/control/uart_protocol.h:92-134 | Reading a 16-bit word back at an offset yields a value if and only if that value's bytes were appended there |
| `UartFrames.Read32` | visionram/include/control/uart_protocol.h:101-162 | The same for 32-bit words |
| `UartFrames.AppendEscaped` | visionram/src/control/uart_protocol.cpp:34-41 | Appends the stuffing of one byte |
| `UartFrames.EncodeFrame` | visionram/src/control/uart_protocol.cpp:51-109 | Produces the flag-delimited stuffing of the raw frame, and nothing for an oversized payload, another version or an unknown type |
| `UartFrames.DecodeRawFrame` | visionram/src/control/uart_protocol.cpp:111-199 | The branch-by-branch decoder is the specified one, with its error for each rejection |
| `UartFrames.RawDecodes` | visionram/src/control/uart_protocol.cpp:51-199 | Whatever the encoder lays out, the decoder accepts, with the payload length filled in |
| `UartFrames.DecodedIsRaw` | visionram/src/control/uart_protocol.cpp:111-199 | Whatever the decoder accepts re-encodes to the same bytes |
| `UartFrames.AcceptedIffRaw` | visionram/src/control/uart_protocol.cpp:111-199 | The accepted byte strings are exactly the encodings, one for each well-formed frame |
| `UartFrames.BurstRejected` | visionram/src/control/uart_protocol.cpp:151-175 | Damage within 16 consecutive bits of header and payload is always rejected: by the length test if the length field changed, otherwise by the checksum |
| `UartParsers.SplitIsFaithful` | visionram/src/control/uart_protocol.cpp:208-224 | The split of a stream at its flags loses nothing, and no segment contains a flag |
| `UartParsers.ParserRefinesSegments` | visionram/src/control/uart_protocol.cpp:208-361 | Without an assembly timeout, and however the stream is cut into chunks, the frames are exactly the decodes of the closed segments, in order, and every counter is the one those segments determine |
| `UartParsers.ZeroTimeoutIsPunctual` | visionram/src/control/uart_protocol.cpp:259-268 | With the timeout switched off that holds of every timed sequence of chunks |
| `UartParsers.EveryOutcomeCountsOnce` | visionram/src/control/uart_protocol.cpp:275-361 | Each closed segment raises exactly one outcome counter; an open one raises one only if it is already faulty |
| `UartParsers.FramedIffEncoding` | visionram/src/control/uart_protocol.cpp:226-307 | A segment yields a frame if and only if it is the stuffed encoding of that well-formed frame |
| `UartParsers.StuffScans` | visionram/src/control/uart_protocol.cpp:238-255 | Stuffed bytes of at most 146 raw bytes scan back to those raw bytes |
| `UartParsers.ScannedIsStuffed` | visionram/src/control/uart_protocol.cpp:238-255 | Whatever scans without error is a stuffing, followed by the escape byte when one is pending |
| `UartParsers.Resynchronises` | visionram/src/control/uart_protocol.cpp:208-307 | From any parser state an encoded frame is the last one delivered, after at most one other |
| `UartParsers.FrameParser.constructor` | visionram/src/control/uart_protocol.cpp:205-206 | A new parser collects nothing and has counted nothing |
| `UartParsers.FrameParser.Feed` | visionram/src/control/uart_protocol.cpp:208-257 | The in-place parser over a buffer of 146 bytes is the fold of the specified byte step |
| `UartParsers.FrameParser.HandleFlag` | visionram/src/control/uart_protocol.cpp:275-307 | On a flag: discards, counts, or delivers the candidate, and starts a new one |
| `UartParsers.FrameParser.JudgeCandidate` | visionram/src/control/uart_protocol.cpp:297-304 | Delivers the candidate exactly when it decodes, and counts its one outcome |
| `UartParsers.FrameParser.HandleData` | visionram/src/control/uart_protocol.cpp:226-256 | On another byte: noise, discarded, unescaped, or collected |
| `UartParsers.FrameParser.AppendRaw` | visionram/src/control/uart_protocol.cpp:309-317 | Collects the byte, or discards the candidate beyond 146 bytes |
| `UartParsers.FrameParser.Tick` | visionram/src/control/uart_protocol.cpp:259-268 | Drops the candidate exactly when its last byte is older than the timeout |
| `UartParsers.FrameParser.Reset` | visionram/src/control/uart_protocol.cpp:270-273 | As new |
| `UartMessages.ShapeSize` | visionram/src/control/uart_protocol.cpp:466-575 | For all eleven types the widths of the fields add up to the fixed payload size |
| `UartMessages.PayloadRoundTrip` | visionram/src/control/uart_protocol.cpp:466-750 | Every payload that is written has its type's size, at most 128, and reads back to the same body |
| `UartMessages.PayloadRoundTripBack` | visionram/src/control/uart_protocol.cpp:466-750 | Every payload that is accepted is the one its own body would write: reserved bytes and sizes admit no other |
| `UartMessages.SentMessagesEncode` | visionram/src/control/uart_protocol.cpp:752-767 | Every message with the right version, type and field ranges has an encoding of at least 20 bytes |
| `UartMessages.MessageRoundTrip` | visionram/src/control/uart_protocol.cpp:752-785 | From any parser state an encoded message, at most 294 bytes, is the last message delivered, with payload_length filled in, after at most one other frame |
| `UartMessages.MessageRoundTripBack` | visionram/src/control/uart_protocol.cpp:752-785 | Every message decoded from an accepted raw frame re-encodes to exactly the delimited bytes of that frame |
| `UartSequences.NewerIsSerialOrder` | visionram/src/control/uart_protocol.cpp:796-799 | Of two distinct numbers exactly one is newer, unless they are half the number space apart, where neither is; never both |
| `UartSequences.AdvanceIsNewer` | visionram/src/control/uart_protocol.cpp:796-799 | Advancing by n gives a newer number if and only if n modulo 2^32 is positive and below 2^31 |
| `UartSequences.TrackerUnwraps` | visionram/src/control/uart_protocol.cpp:801-824 | Over any run with any boots, accepted numbers strictly advance when unwrapped, by less than 2^31 each, and the whole advance is the newer count plus the gaps |
| `UartSequences.OneBootAdvance` | visionram/src/control/uart_protocol.cpp:801-824 | For one boot id, across any number of wraps, the advance from the first number is the newer count plus gap_count |
| `UartSequences.IgnoredChangesNothing` | visionram/src/control/uart_protocol.cpp:810-815 | The tracker is unchanged if and only if the number was a duplicate or older |
| `UartSequences.SequenceTracker.Observe` | visionram/src/control/uart_protocol.cpp:801-824 | The in-place tracker makes the specified transition and reports its relation |
| `UartSequences.SequenceTracker.Reset` | visionram/src/control/uart_protocol.cpp:826-831 | Forgets the baseline and the gaps |
| `UartReliable.TransactionIsBounded` | visionram/src/control/uart_protocol.cpp:839-903 | From a successful `Begin`, whatever follows: at most one plus max_retries transmissions, all the same bytes, each at least a timeout after the one before, then at most one final outcome; giving up takes every retry |
| `UartReliable.ExpiredIsHandled` | visionram/src/control/uart_protocol.cpp:861-872 | An expired outstanding transaction is retried or given up by the next poll, and retried if and only if a retry is left |
| `UartReliable.ReliableTransaction.Begin` | visionram/src/control/uart_protocol.cpp:839-859 | Refuses a second transaction, an empty frame and a zero timeout; otherwise starts with no retry made |
| `UartReliable.ReliableTransaction.Poll` | visionram/src/control/uart_protocol.cpp:861-872 | Silent before the deadline; then a retry with a new deadline, or failure |
| `UartReliable.ReliableTransaction.HandleResponse` | visionram/src/control/uart_protocol.cpp:874-891 | Matches only the outstanding type and id, and then ends the transaction |
| `UartReliable.ReliableTransaction.Cancel` | visionram/src/control/uart_protocol.cpp:893-903 | Back to idle |
| `UartHealth.PendingSummarises` | visionram/include/control/uart_health_projection.h:73-103 | Over any run of records and acknowledgements, revisions strictly increase with every change, and the pending issue is there exactly when adverse samples are uncleared, covers the newest of them and has the worst status among them |
| `UartHealth.OpenMeansUnacknowledged` | visionram/include/control/uart_health_projection.h:84-103 | Uncleared adverse samples exist if and only if the newest adverse revision has not been acknowledged since |
| `UartHealth.PendingIffUnacknowledged` | visionram/include/control/uart_health_projection.h:84-103 | The record shows an issue if and only if the newest adverse revision has not been acknowledged since it was recorded |
| `UartHealth.UartHealthRecord.Record` | visionram/include/control/uart_health_projection.h:73-96 | An unchanged sample changes nothing; a changed one takes the next revision, and when adverse joins or raises the pending issue |
| `UartHealth.UartHealthRecord.AckThrough` | visionram/include/control/uart_health_projection.h:98-103 | Clears the issue exactly when the acknowledged revision covers it |
| `UartLinkSafety.NextInv` | visionram/src/control/uart_link.cpp:501-618 | Every critical section of the I/O loop and every call from another thread keeps the link invariant |
| `UartLinkSafety.TraceInv` | visionram/src/control/uart_link.cpp:501-618 | Every state of every run satisfies it |
| `UartLinkSafety.LoopHeadAccounts` | visionram/src/control/uart_link.cpp:348-376 | At every loop head: busy if and only if a request is pending or outstanding, never both; outstanding if and only if its frame is in `tx_` or the wait is RELIABLE; requests = acks + nacks + failures + (busy ? 1 : 0) |
| `UartLinkSafety.ModesAreSafe` | visionram/src/control/uart_link.cpp:501-544 | In every state: `tx_` and an open response window never coexist; in NEGOTIATING only a HELLO is in flight or awaited; READY or DEGRADED implies an open port and a valid peer boot id; a closed port has nothing outstanding |
| `UartLinkSafety.ReopenCancelsNothing` | visionram/src/control/uart_link.cpp:513-519 | The bare cancel on reopening finds nothing outstanding and leaves no request busy for ever |
| `UartLinkSafety.WatchdogNeverWraps` | visionram/src/control/uart_link.cpp:994-997 | The unsigned subtraction of the watchdog test never wraps |
| `UartLinkSafety.TransmissionsAreBounded` | visionram/src/control/uart_link.cpp:1042-1053 | All frames of one transaction are byte-identical, at most one plus max_retries, and no other frame is started between two of them |
| `UartLinkSafety.FrameInFlightIsLogged` | visionram/src/control/uart_link.cpp:1118-1137 | The log of started frames is truthful: the frame in `tx_`, as handed over, is its last entry |
| `UartLinkSafety.ExpiredReliableIsHandled` | visionram/src/control/uart_link.cpp:968-1074 | A reliable window found expired leads in that same pass to a retry of the same bytes, a counted failure, or the loss of the link, whatever other threads do meanwhile |
| `UartLinkSafety.SessionEntry` | visionram/src/control/uart_link.cpp:854-883 | The only step into READY or DEGRADED from outside is the acceptance of the HELLO_ACK that carries the sequence of the last HELLO sent |
| `UartLinkSafety.SessionEnds` | visionram/src/control/uart_link.cpp:626-645 | Opening or closing the port, losing the link and a reboot of the peer all leave the session |
| `UartLinkSafety.SessionNeedsHelloAck` | visionram/src/control/uart_link.cpp:774-913 | Whoever is in a session after having been outside one has accepted such a HELLO_ACK in between |
| `UartLinkSafety.RankKept` | visionram/src/control/uart_link.cpp:393-461 | No step other than a matching answer that makes the link READY lowers the severity of the health status |
| `UartLinkSafety.SeverityNeverDecreases` | visionram/src/control/uart_link.cpp:393-461 | Between two such transitions to READY the severity never decreases |
| `UartLinkLoop.LatestValueMailbox.Put` | visionram/src/control/uart_link.cpp:35-44 | The newest value replaces the old one, every value ever put is counted as taken, overwritten, cleared or still there |
| `UartLinkLoop.LatestValueMailbox.Take` | visionram/src/control/uart_link.cpp:46-55 | Takes the value once |
| `UartLinkLoop.LatestValueMailbox.Clear` | visionram/src/control/uart_link.cpp:62-65 | Empties the mailbox |
| `UartLinkSafety.IdsGoAround` | visionram/src/control/uart_link.cpp:340-346 | Transaction and ping ids are never zero and count around the 2^32 - 1 other numbers, so an id comes back only after all of them |
| `UartLinkLoop.UartLink.QueueReliable` | visionram/src/control/uart_link.cpp:348-376 | Refused while a request is busy or pending; otherwise takes the next nonzero id and counts one request |
| `UartLinkLoop.UartLink.RequestPing` | visionram/src/control/uart_link.cpp:280-296 | One ping pending at a time |
| `UartLinkLoop.UartLink.SetState` | visionram/src/control/uart_link.cpp:393-439 | The health sample each state records |
| `UartLinkLoop.UartLink.ObserveConfirmedBoot` | visionram/src/control/uart_link.cpp:441-453 | A different confirmed boot id is an adverse sample; the id is remembered |
| `UartLinkLoop.UartLink.NotePeerRenegotiation` | visionram/src/control/uart_link.cpp:455-461 | A rebooting peer is an adverse sample of a new session |
| `UartLinkLoop.UartLink.NoteManagedStartupNotReady` | visionram/src/control/uart_link.cpp:308-318 | Recorded only outside READY, STOPPING and CLOSED |
| `UartLinkLoop.UartLink.OpenIfDue` | visionram/src/control/uart_link.cpp:504-551 | Opening the port resets parser, tracker, frame, window and transaction and starts negotiation; a failed attempt is adverse and delayed |
| `UartLinkLoop.UartLink.Reconnect` | visionram/src/control/uart_link.cpp:626-645 | Closes the port, fails the outstanding request and loses the link |
| `UartLinkLoop.UartLink.HandleTimeouts` | visionram/src/control/uart_link.cpp:968-1012 | Closes an expired window, then loses a silent session |
| `UartLinkLoop.UartLink.Schedule` | visionram/src/control/uart_link.cpp:1014-1106 | Starts at most one frame: a HELLO, a retry, a new request, a heartbeat, a ping or a control, in this order of preference |
| `UartLinkLoop.UartLink.SendHello` | visionram/src/control/uart_link.cpp:1140-1157 | The awaited sequence is the one the HELLO carries |
| `UartLinkLoop.UartLink.SendReliable` | visionram/src/control/uart_link.cpp:1171-1206 | Begins the transaction for the frame it hands to the transmitter |
| `UartLinkLoop.UartLink.CompleteTransmit` | visionram/src/control/uart_link.cpp:720-772 | Opens the response window of the frame just sent |
| `UartLinkLoop.UartLink.HandleHelloAck` | visionram/src/control/uart_link.cpp:854-883 | READY only for an acceptable answer to the awaited HELLO; a rejection is adverse |
| `UartLinkLoop.UartLink.HandleReliableResponse` | visionram/src/control/uart_link.cpp:927-955 | A matching answer ends the transaction, frees the desk and counts one ack or nack |
| `UartLinkLoop.UartLink.HandleFrame` | visionram/src/control/uart_link.cpp:774-852 | A new boot id restarts negotiation and fails the outstanding request; duplicates and older frames are then ignored |
| `UartLinkLoop.UartLink.FailOutstandingReliable` | visionram/src/control/uart_link.cpp:1254-1264 | Fails an outstanding request exactly once |
| `MediaClocks.FramesToNs` | visionram/src/media/media_clock.cpp:30-55 | With 64-bit words throughout: floor(frames * 10^9 / rate) if the rate is nonzero and that fits in int64, otherwise refused; no intermediate overflows |
| `MediaClocks.IntervalsNeverOverlap` | visionram/src/media/media_clock.cpp:113-183 | Over any run of calls, accepted intervals are nonempty, not before the epoch, and never overlap or regress |
| `MediaClocks.ContiguousAbut` | visionram/src/media/media_clock.cpp:128-177 | Accepted chunks contiguous in index at one rate, without discontinuity, abut exactly |
| `MediaClocks.DurationsTelescope` | visionram/src/media/media_clock.cpp:128-177 | Their durations add up to the distance between first start and last end |
| `MediaClocks.DurationsNeverDrift` | visionram/src/media/media_clock.cpp:66-177 | However many they are, the sum of their durations is less than one nanosecond away from the exact time of their samples |
| `MediaClocks.PredictionFits` | visionram/src/media/media_clock.cpp:66-76 | A prediction is made if and only if there is an anchor not after the index, the rate is nonzero, and both the distance from the anchor and anchor time plus distance fit in int64; then it is that sum |
| `MediaClocks.PredictionCanOverflow` | visionram/src/media/media_clock.cpp:73-75 | The sum is not checked: with the anchor at 5 s and index 0, index 442721857769029 at 48 kHz passes every check and overflows |
| `MediaClocks.MediaClock.PredictAudioMonoNs` | visionram/src/media/media_clock.cpp:66-76 | The in-place prediction is the specified one: none without an anchor or before it, overflow told apart from a throw |
| `MediaClocks.MediaClock.StampAudio` | visionram/src/media/media_clock.cpp:78-184 | Each throw and overflow, with the counter it raises and the anchor it may already have moved, and the timing of an accepted chunk |
| `PcmRechunk.ConsumedDrops` | visionram/src/audio/audio_encode.cpp:396-414 | Consuming n frames drops exactly the first n buffered frames |
| `PcmRechunk.SubmitAllKeeps` | visionram/src/audio/audio_encode.cpp:786-799 | The submission loop keeps the encoder invariant and, when every submission succeeds, ends with less than one codec frame |
| `PcmRechunk.SubmitAllFull` | visionram/src/audio/audio_encode.cpp:786-799 | It submits only full frames and takes no input |
| `PcmRechunk.EncodeKeeps` | visionram/src/audio/audio_encode.cpp:729-811 | A call of `Encode`, whatever the codec answers: nothing lost or reordered, intervals still tile, only full frames submitted, and fewer than one frame buffered after success |
| `PcmRechunk.FlushKeeps` | visionram/src/audio/audio_encode.cpp:813-865 | `Flush` keeps the invariant, takes no input, and a successful one leaves the encoder drained |
| `PcmRechunk.RunKeeps` | visionram/src/audio/audio_encode.cpp:729-865 | So over any run of calls |
| `PcmRechunk.RechunkingIsLossless` | visionram/src/audio/audio_encode.cpp:254-414 | From a fresh encoder and over any run: submitted samples followed by buffered ones are the decoded bytes of the accepted chunks in order; intervals tile the sample index between discontinuities; once drained nothing is buffered |
| `PcmRechunk.SourcePtsNearIdeal` | visionram/src/audio/audio_encode.cpp:269-278 | When the media clock stamped the inputs, the source time of every submitted frame is within 2 ns of its ideal sample time, however long the run |
| `PcmRechunk.FfmpegAacEncoder.BuildFrame` | visionram/src/audio/audio_encode.cpp:254-394 | Succeeds exactly under its guard; the frame is the next buffered samples in order, padded with silence, and the interval is that of the oldest one |
| `PcmRechunk.CopyPending` | visionram/src/audio/audio_encode.cpp:334-390 | The loop over the chunks gathers the first n buffered frames in order |
| `PcmRechunk.CopyFrames` | visionram/src/audio/audio_encode.cpp:347-378 | The loop inside it copies the next frames of one chunk to their place |
| `PcmRechunk.FfmpegAacEncoder.ConsumePending` | visionram/src/audio/audio_encode.cpp:396-414 | The loop over the deque drops the specified frames and counts them down |
| `PcmRechunk.FfmpegAacEncoder.SubmitFrame` | visionram/src/audio/audio_encode.cpp:596-634 | Consumes the samples only when the codec took the frame |
| `PcmRechunk.FfmpegAacEncoder.Encode` | visionram/src/audio/audio_encode.cpp:729-811 | Refuses invalid, mismatched and noncontiguous chunks; drains and reopens at a discontinuity; then submits while a full frame is buffered |
| `PcmRechunk.FfmpegAacEncoder.Flush` | visionram/src/audio/audio_encode.cpp:813-865 | Submits the remainder, short or padded as the codec allows, then drains |
| `TargetTracker.TrackerMeansHistory` | visionram/src/control/target_state_machine.cpp:45-93 | After any history of packets: acquired if and only if some acquire_hits consecutive fresh detections had no lost_misses consecutive non-detections after them; the reported state is the one the history defines, LOST exactly on plain misses since a loss with no detection between |
| `TargetTracker.HitAcquires` | visionram/src/control/target_state_machine.cpp:71-81 | A further detection acquires exactly when it completes an acquiring run |
| `TargetTracker.MissLoses` | visionram/src/control/target_state_machine.cpp:49-56 | A further non-detection of any kind loses exactly when it completes a losing run |
| `TargetTracker.LatchAfterMiss` | visionram/src/control/target_state_machine.cpp:83-92 | The latch is set by a loss and kept until a detection |
| `TargetTracker.ValidIffDetected` | visionram/src/control/target_state_machine.cpp:107-173 | A control is valid if and only if its state is DETECTED, and an invalid one carries a zero error |
| `TargetTracker.CountsAddUp` | visionram/src/control/target_state_machine.cpp:122-173 | Over any run the state counts sum to the processed packets and valid_controls is the DETECTED count |
| `TargetTracker.LatestMeansHistory` | visionram/src/control/target_state_machine.cpp:122-173 | The state published for the last packet is the one its history means, staleness included |
| `TargetTracker.TargetStateMachine.ClassifyAndUpdate` | visionram/src/control/target_state_machine.cpp:45-93 | The three miss branches and the hit branch make the specified transition |
| `TargetTracker.TargetStateMachine.Publish` | visionram/src/control/target_state_machine.cpp:122-173 | Classifies by age first, then validity, then detection, and counts the state |
| `AccessUnits.AnnexBStartCodeSize` | visionram/src/media/network_stream.cpp:40-53 | A positive size covers zeros and a one, inside the buffer; a three-byte start code is never missed |
| `AccessUnits.FindHevcParameterSets` | visionram/src/media/network_stream.cpp:55-71 | The skipping scan loop is the recursive scan |
| `AccessUnits.FoundIsThere` | visionram/src/media/network_stream.cpp:55-71 | What the scan finds is really there: a start code followed by a NAL header of that type |
| `AccessUnits.ScanOfPrefix` | visionram/src/media/network_stream.cpp:55-71 | The scan of an extended stream finds everything the scan of its beginning finds, although it may skip differently where they join |
| `AccessUnits.InjectionCompletes` | visionram/src/media/network_stream.cpp:513-531 | Hence a complete configuration followed by any data scans as complete |
| `AccessUnits.QueuedUnitsAreWellFormed` | visionram/src/media/network_stream.cpp:476-542 | Over any run every queued unit is the in-order concatenation of its fragments with their timestamps, preceded by the configuration if and only if it is a keyframe lacking parameter sets; every queued keyframe scans as containing VPS, SPS and PPS; the video packets in the queue are those of the last units, in order |
| `AccessUnits.NoFragmentIsLost` | visionram/src/media/network_stream.cpp:490-542 | The units are, in order, made of the fragments `Write` accepted; while there is no fatal error the remaining ones are exactly the pending fragments |
| `AccessUnits.FfmpegMpegTsUdpSink.Write` | visionram/src/media/network_stream.cpp:476-542 | Ignores codec configuration, refuses when not accepting, empty or of no duration, fails on a changed timestamp, else assembles and at end of frame queues |
| `AccessUnits.FfmpegMpegTsUdpSink.AddFragment` | visionram/src/media/network_stream.cpp:490-508 | Starts a unit or extends the pending one |
| `AccessUnits.FfmpegMpegTsUdpSink.EnqueueVideo` | visionram/src/media/network_stream.cpp:513-541 | Completes the pending unit, and fails the sink when the queue is full |
| `AccessUnits.FfmpegMpegTsUdpSink.SetError` | visionram/src/media/network_stream.cpp:157-172 | Stops accepting and stops the queue |

## Left out

- The foreign calls: V4L2 and poll, termios, ALSA, RGA, RKNN, FFmpeg, sockets and files answer as parameters; calls return, and in the pipeline QBUF succeeds (`V4l2Cameras.V4L2Camera` takes the driver's answer as a parameter).
- Condition variables and memory orderings: a wait is a guard on an atomic step.
- Pipelines: the threads are steps on values instead of thread objects, because they interleave; queues, broker and camera are classes whose methods make the same transitions.
- Pipelines: a partial failure of `Start`, `camera_->Stop()` after the report, the `running_` flag, timestamps and statistics; an encoded packet is a unit without content.
- Pipelines: the handlers of `PostprocessLoop`, whose body cannot throw; the `Flush` of `Stop` on the caller's thread, which shares no state; `ProcessCompletedFrame` is the return of its slot.
- V4l2Cameras.V4L2Camera.Start: the call that succeeds; a QBUF or STREAMON that fails there throws, and `Open` and `ReleaseResources` are not part of this model.
- V4l2Cameras.V4L2Camera.constructor: mapping and exporting the buffers.
- CaptureBrokers.CaptureBufferBroker.Publish: null arguments and a failing allocation of a lease; release reasons and the external notifier.
- The 64-bit counters and deadlines of queue, broker, camera, parser and link do not wrap; the 32-bit sequence, transaction and ping numbers do.
- UartHealth.UartHealthRecord.Record: a revision at the end of 64 bits terminates the source's process; here revisions are unbounded.
- UartParsers.ParserRefinesSegments: about runs in which no assembly timeout fires, as any timeout drops a candidate by the clock; `UartParsers.FrameParser.Tick` says when it fires.
- UartMessages.MessageRoundTrip: signed fields are their bit patterns; message types outside the eleven of the enumeration cannot be written down.
- UartLinks: the race of `Stop` with the I/O thread over the STOPPING state, and everything after `Stop` begins; the state FAILED, which nothing sets; failing clocks.
- UartLinks: the bytes of a frame are supplied to the scheduler (`UartMessages.SentMessagesEncode` shows that they exist and are not empty); the age and content of control updates; the metrics other than requests, acks, nacks and failures.
- UartLinkLoop.UartLink.HandleTimeouts: requires that the last reception is not after the pass, which `UartLinkSafety.WatchdogNeverWraps` proves for all runs.
- MediaClocks.MediaClock.StampAudio: what C++ does after the overflow of a signed sum or difference is undefined; here such a call has the outcome `Overflow` and keeps the anchor it may have moved.
- MediaClocks: `VideoPtsNs`, one subtraction behind one test.
- PcmRechunk.FfmpegAacEncoder.BuildFrame: the conversion of a sample to float; samples are their 16-bit patterns.
- PcmRechunk.FfmpegAacEncoder.Encode: packets, ticks and `EmitPacket`, which depend on rescaling in a library; `pending_frames` does not wrap, which in the source needs codec failures while 2^32 frames pile up.
- TargetTracker.TargetStateMachine.Publish: the sinks, the observation's box and confidence; error components are real numbers.
- AccessUnits.FfmpegMpegTsUdpSink.Write: timestamps are integers, statistics other than received, enqueued and injected are dropped; the muxing worker only takes packets from the queue; audio packets are validated by the caller.
- The mp4 recorder, which assembles fragments the same way around library calls.
- The sensor register driver, YOLO decoding, letterbox geometry, fixed-point conversion and latency percentiles: tables or floating point.
- Composition of the runtime, command line, reports, telemetry, logging and the host viewer: plumbing.
