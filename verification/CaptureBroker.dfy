/** The capture buffer broker and its leases as the objects they are. */
module CaptureBrokers {
  import opened Wrappers
  import opened CaptureBuffers
  import Rings

  const ALL_CONSUMERS_MASK := 3

  // Bit 0 is the video encoder, bit 1 is inference.
  function DecodeMask(mask: nat): Consumers {
    Consumers(mask % 2 == 1, mask / 2 % 2 == 1)
  }

  ghost predicate Mirrors(b: Broker, out: set<(Key, Consumer)>) {
    forall key, c :: Releasable(b, key, c) <==> (key, c) in out
  }

  ghost function Grants(key: Key, wanted: Consumers): set<(Key, Consumer)> {
    (if wanted.video then {(key, VideoEncoder)} else {})
    + (if wanted.inference then {(key, Inference)} else {})
  }

  class FrameLease {
    const broker: CaptureBufferBroker
    const key: Key
    const consumer: Consumer
    var armed: bool
    var released: bool

    constructor (broker: CaptureBufferBroker, key: Key, consumer: Consumer)
      ensures this.broker == broker && this.key == key && this.consumer == consumer
      ensures !armed && !released
    {
      this.broker, this.key, this.consumer := broker, key, consumer;
      armed, released := false, false;
    }

    predicate IsValid()
      reads this
    {
      armed && !released
    }

    // A lease that is still valid always gives back its buffer; a second
    // release, and the release of a lease never handed out, change no slot.
    method Release() returns (ok: bool)
      requires broker.Valid() && (armed ==> this in broker.leases)
      modifies this`released, broker, broker.slots, broker.ring
      ensures broker.Valid() && broker.leases == old(broker.leases)
      ensures ok == old(IsValid())
      ensures broker.Model() == (
        if old(IsValid()) then ReleaseLease(old(broker.Model()), key, consumer).0
        else if armed then old(broker.Model()).(stats := old(broker.Model()).stats.(
          duplicateReleases := old(broker.Model()).stats.duplicateReleases + 1))
        else old(broker.Model()))
      ensures armed ==> released
    {
      if !armed {
        return false;
      }
      if released {
        broker.RecordDuplicateRelease();
        return false;
      }
      ReleaseOnce();
      ok := true;
    }

    method ReleaseOnce()
      requires broker.Valid() && IsValid() && this in broker.leases
      modifies this`released, broker, broker.slots, broker.ring
      ensures broker.Valid() && broker.leases == old(broker.leases) && released
      ensures broker.Model() == ReleaseLease(old(broker.Model()), key, consumer).0
    {
      ReleaseMirrors(broker.Model(), broker.Out(), key, consumer);
      MarkReleased();
      var _ := broker.ReleaseSlot(key, consumer);
    }

    // The exchange that only the first release wins.
    method MarkReleased()
      requires broker.LeasesValid() && IsValid() && this in broker.leases
      modifies this`released
      ensures broker.LeasesValid() && released
      ensures broker.Out() == old(broker.Out()) - {(key, consumer)}
    {
      released := true;
    }

    // The destructor.
    method Abandon()
      requires broker.Valid() && (armed ==> this in broker.leases)
      modifies this`released, broker, broker.slots, broker.ring
      ensures broker.Valid() && broker.leases == old(broker.leases)
      ensures !IsValid()
      ensures broker.Model() == if old(IsValid())
        then ReleaseLease(old(broker.Model()), key, consumer).0 else old(broker.Model())
    {
      if armed && !released {
        var _ := Release();
      }
    }

    // None stands for the std::logic_error: a valid lease is never stale.
    method GetFrame() returns (frame: Option<Frame>)
      requires broker.Valid() && (armed ==> this in broker.leases)
      ensures frame.Some? <==> IsValid()
      ensures frame.Some? ==> Holds(broker.Model(), key) && frame.value == broker.Model().slots[key.index].frame
    {
      assert armed && !released ==> (key, consumer) in broker.Out();
      if !(armed && !released) {
        return None;
      }
      frame := broker.LookUp(key);
    }
  }

  // A release takes its lease off the mirror.
  lemma ReleaseMirrors(b: Broker, out: set<(Key, Consumer)>, key: Key, consumer: Consumer)
    requires Inv(b) && Mirrors(b, out) && (key, consumer) in out
    ensures var after := ReleaseLease(b, key, consumer).0;
            Inv(after) && Mirrors(after, out - {(key, consumer)})
  {
    ReleaseInv(b, key, consumer);
    ReleaseTakes(b, key, consumer);
  }

  // An accepted frame puts the leases it grants on the mirror; none of them was there.
  lemma PublishMirrors(b: Broker, out: set<(Key, Consumer)>, input: PublishInput)
    requires Inv(b) && Mirrors(b, out) && Publish(b, input).1
    ensures (KeyOf(input.frame), VideoEncoder) !in out && (KeyOf(input.frame), Inference) !in out
    ensures var after := Publish(b, input).0;
            Inv(after) && Mirrors(after, out + Grants(KeyOf(input.frame), input.consumers))
  {
    PublishInv(b, input);
    PublishHolds(b, input);
    PublishGrants(b, input);
  }

  lemma FreshHoldsNothing(buffers: nat)
    ensures Mirrors(Fresh(buffers), {})
  {
  }

  class CaptureBufferBroker {
    const requireDmabuf: bool
    const slots: array<Slot>
    const ring: array<Option<Request>>
    var head: nat
    var tail: nat
    var size: nat
    var closed: bool
    var stats: Stats
    ghost var leases: set<FrameLease>

    ghost predicate RingValid()
      reads this, slots, ring
    {
      slots.Length == ring.Length && Rings.Shape(ring[..], head, tail, size)
    }

    // The leases that are still out.
    ghost function Out(): set<(Key, Consumer)>
      reads this`leases, leases
    {
      set l | l in leases && !l.released :: (l.key, l.consumer)
    }

    ghost predicate LeasesValid()
      reads this`leases, leases
    {
      && (forall l :: l in leases ==> l.broker == this && l.armed)
      && (forall l, l' ::
            (l in leases && l' in leases && !l.released && !l'.released
             && l.key == l'.key && l.consumer == l'.consumer) ==> l == l')
    }

    // The slots are accounted for, and the lease objects mirror them: an unreleased
    // lease is never stale, and every consumer that has not released has its lease.
    ghost predicate Valid()
      reads this, slots, ring, leases
    {
      RingValid() && Inv(Model()) && LeasesValid() && Mirrors(Model(), Out())
    }

    ghost function Model(): Broker
      requires Rings.Shape(ring[..], head, tail, size)
      reads this, slots, ring
    {
      Broker(slots[..], Rings.Window(ring[..], head, tail, size), closed, stats)
    }

    constructor (maxBufferCount: nat, requireDmabuf: bool)
      requires 0 < maxBufferCount // CaptureBufferBroker rejects zero buffers
      ensures Valid() && fresh(slots) && fresh(ring) && leases == {}
      ensures Model() == Fresh(maxBufferCount)
    {
      this.requireDmabuf := requireDmabuf;
      slots := new Slot[maxBufferCount](_ => Vacant);
      ring := new Option<Request>[maxBufferCount](_ => None);
      head, tail, size, closed, stats, leases := 0, 0, 0, false, NO_STATS, {};
      new;
      FreshInv(maxBufferCount);
      FreshHoldsNothing(maxBufferCount);
      assert slots[..] == Fresh(maxBufferCount).slots;
      assert Out() == {};
    }

    method RecordDuplicateRelease()
      requires Valid()
      modifies this`stats
      ensures Valid()
      ensures Model() == old(Model()).(stats := old(stats).(
        duplicateReleases := old(stats).duplicateReleases + 1))
    {
      ghost var before := Model();
      stats := stats.(duplicateReleases := stats.duplicateReleases + 1);
      assert forall key, c :: Releasable(Model(), key, c) <==> Releasable(before, key, c);
    }

    // The completion of a slot all of whose leases are released.
    method EmitCompletion(request: Request)
      requires RingValid() && size < ring.Length
      modifies this`tail, this`size, this`stats, ring
      ensures RingValid()
      ensures Model() == old(Model()).(
        completions := old(Model()).completions + [request],
        stats := old(stats).(emitted := old(stats).emitted + 1, pending := old(size) + 1))
    {
      Rings.Push(ring[..], head, tail, size, request);
      ring[tail] := Some(request);
      tail := Rings.Next(tail, ring.Length);
      size := size + 1;
      stats := stats.(emitted := stats.emitted + 1, pending := size);
    }

    // Core::ReleaseLease on slots and ring, whatever they hold.
    method ReleaseSlot(key: Key, consumer: Consumer) returns (ok: bool)
      requires RingValid()
      modifies this`tail, this`size, this`stats, slots, ring
      ensures RingValid()
      ensures (Model(), ok) == ReleaseLease(old(Model()), key, consumer)
    {
      ghost var after := ReleaseLease(Model(), key, consumer);
      if key.index >= slots.Length || slots[key.index].Vacant?
         || KeyOf(slots[key.index].frame) != key || !slots[key.index].requested.Has(consumer) {
        stats := stats.(staleReleases := stats.staleReleases + 1);
        return false;
      }
      if slots[key.index].released.Has(consumer) {
        stats := stats.(duplicateReleases := stats.duplicateReleases + 1);
        return false;
      }
      var slot := slots[key.index];
      slot := slot.(released := slot.released.With(consumer), remaining := slot.remaining - 1);
      stats := stats.(leasesReleased := stats.leasesReleased + 1,
                      outstandingLeases := stats.outstandingLeases - 1);
      slots[key.index] := slot;
      if slot.remaining == 0 {
        if size >= ring.Length {
          stats := stats.(staleReleases := stats.staleReleases + 1);
          assert slots[..] == after.0.slots;
          return false;
        }
        EmitCompletion(Request(key, slot.frame.identity));
        slots[key.index] := slot.(completionQueued := true);
      }
      ok := true;
      assert slots[..] == after.0.slots;
    }

    method LookUp(key: Key) returns (frame: Option<Frame>)
      requires RingValid()
      ensures frame.Some? <==> Holds(Model(), key)
      ensures frame.Some? ==> frame.value == Model().slots[key.index].frame
    {
      if key.index >= slots.Length || slots[key.index].Vacant? || KeyOf(slots[key.index].frame) != key {
        return None;
      }
      frame := Some(slots[key.index].frame);
    }

    // Takes the oldest completion off the ring.
    method TakeCompletion() returns (request: Request)
      requires RingValid() && size > 0
      modifies this`head, this`size, ring
      ensures RingValid()
      ensures old(Model()).completions != [] && request == old(Model()).completions[0]
      ensures Model() == old(Model()).(completions := old(Model()).completions[1..])
    {
      Rings.Pop(ring[..], head, tail, size);
      request := ring[head].value;
      ring[head] := None;
      head := Rings.Next(head, ring.Length);
      size := size - 1;
    }

    // Frees the slot of a popped completion and counts the pop.
    method FreeSlot(key: Key)
      requires RingValid()
      modifies this`stats, slots
      ensures RingValid()
      ensures var b := old(Model());
        var owned := key.index < |b.slots| && b.slots[key.index].Occupied?
                     && b.slots[key.index].completionQueued && KeyOf(b.slots[key.index].frame) == key;
        Model() == b.(slots := if owned then b.slots[key.index := Vacant] else b.slots,
                      stats := b.stats.(outstandingFrames := b.stats.outstandingFrames - if owned then 1 else 0,
                                        popped := b.stats.popped + 1, pending := |b.completions|))
    {
      var index := key.index;
      if index < slots.Length && slots[index].Occupied? && slots[index].completionQueued
         && KeyOf(slots[index].frame) == key {
        slots[index] := Vacant;
        stats := stats.(outstandingFrames := stats.outstandingFrames - 1);
      }
      stats := stats.(popped := stats.popped + 1, pending := size);
    }

    // Core::PopLocked on slots and ring, whatever they hold.
    method PopCore() returns (request: Option<Request>)
      requires RingValid()
      modifies this`head, this`size, this`stats, slots, ring
      ensures RingValid() && (Model(), request) == PopRequeue(old(Model()))
    {
      if size == 0 {
        return None;
      }
      var taken := TakeCompletion();
      FreeSlot(taken.key);
      request := Some(taken);
    }

    method PopLocked() returns (request: Option<Request>)
      requires Valid()
      modifies this`head, this`size, this`stats, slots, ring
      ensures Valid() && (Model(), request) == PopRequeue(old(Model()))
    {
      ghost var before := Model();
      PopInv(before);
      request := PopCore();
      if before.completions != [] {
        PopFrees(before);
      }
      assert forall key, c :: Releasable(Model(), key, c) <==> Releasable(before, key, c);
    }

    method TryPopRequeue() returns (request: Option<Request>)
      requires Valid()
      modifies this`head, this`size, this`stats, slots, ring
      ensures Valid() && (Model(), request) == PopRequeue(old(Model()))
    {
      request := PopLocked();
    }

    // The body after the wait; the wait itself is the guard.
    method WaitPopRequeue() returns (request: Option<Request>)
      requires Valid() && CanWaitPop(Model())
      modifies this`head, this`size, this`stats, slots, ring
      ensures Valid() && (Model(), request) == PopRequeue(old(Model()))
      ensures request.None? ==> closed && forall i :: 0 <= i < slots.Length ==> slots[i].Vacant?
    {
      WaitEndsOnlyWhenEmpty(Model());
      request := PopLocked();
    }

    method Close()
      requires Valid()
      modifies this`closed
      ensures Valid() && Model() == CaptureBuffers.Close(old(Model()))
    {
      ghost var before := Model();
      closed := true;
      assert forall key, c :: Releasable(Model(), key, c) <==> Releasable(before, key, c);
    }

    // A new lease, armed and recorded.
    method AddLease(key: Key, consumer: Consumer) returns (lease: FrameLease)
      requires LeasesValid() && (key, consumer) !in Out()
      modifies this`leases
      ensures LeasesValid() && fresh(lease) && leases == old(leases) + {lease}
      ensures Out() == old(Out()) + {(key, consumer)}
      ensures lease.IsValid() && lease.key == key && lease.consumer == consumer
    {
      forall l | l in leases && !l.released ensures (l.key, l.consumer) in Out() {
      }
      lease := new FrameLease(this, key, consumer);
      lease.armed := true;
      leases := leases + {lease};
      assert lease in leases;
    }

    // One lease for each consumer asked for.
    method AddLeases(key: Key, wanted: Consumers) returns (video: FrameLease?, inference: FrameLease?)
      requires LeasesValid() && (key, VideoEncoder) !in Out() && (key, Inference) !in Out()
      modifies this`leases
      ensures LeasesValid() && Out() == old(Out()) + Grants(key, wanted)
      ensures video != null <==> wanted.video
      ensures inference != null <==> wanted.inference
      ensures video != null ==> video.IsValid() && fresh(video)
                                && video.key == key && video.consumer == VideoEncoder
      ensures inference != null ==> inference.IsValid() && fresh(inference)
                                    && inference.key == key && inference.consumer == Inference
      ensures leases == old(leases) + (if video != null then {video} else {})
                                    + (if inference != null then {inference} else {})
    {
      video, inference := null, null;
      if wanted.video {
        video := AddLease(key, VideoEncoder);
      }
      if wanted.inference {
        inference := AddLease(key, Inference);
      }
    }

    // The branch of Publish that accepts the frame.
    method Admit(frame: Frame, wanted: Consumers)
      returns (video: FrameLease?, inference: FrameLease?)
      requires Valid() && CaptureBuffers.Publish(Model(), PublishInput(frame, wanted, true)).1
      modifies this`stats, this`leases, slots
      ensures Valid()
      ensures Model() == CaptureBuffers.Publish(old(Model()), PublishInput(frame, wanted, true)).0
      ensures video != null <==> wanted.video
      ensures inference != null <==> wanted.inference
      ensures video != null ==> video.IsValid() && fresh(video)
                                && video.key == KeyOf(frame) && video.consumer == VideoEncoder
      ensures inference != null ==> inference.IsValid() && fresh(inference)
                                    && inference.key == KeyOf(frame) && inference.consumer == Inference
      ensures leases == old(leases) + (if video != null then {video} else {})
                                    + (if inference != null then {inference} else {})
    {
      ghost var input := PublishInput(frame, wanted, true);
      PublishMirrors(Model(), Out(), input);
      FillSlot(frame, wanted);
      video, inference := AddLeases(KeyOf(frame), wanted);
    }

    method FillSlot(frame: Frame, wanted: Consumers)
      requires RingValid() && CaptureBuffers.Publish(Model(), PublishInput(frame, wanted, true)).1
      modifies this`stats, slots
      ensures RingValid()
      ensures Model() == CaptureBuffers.Publish(old(Model()), PublishInput(frame, wanted, true)).0
    {
      var count := wanted.Count();
      slots[frame.index] := Occupied(frame, wanted, NOBODY, count, false);
      var frames, out := stats.outstandingFrames + 1, stats.outstandingLeases + count;
      stats := stats.(accepted := stats.accepted + 1, leasesCreated := stats.leasesCreated + count,
                      outstandingFrames := frames, outstandingLeases := out,
                      highFrames := Max(stats.highFrames, frames),
                      highLeases := Max(stats.highLeases, out));
    }

    // The branches of Publish that refuse the frame.
    method Reject(invalid: nat, duplicate: nat)
      requires Valid()
      modifies this`stats
      ensures Valid()
      ensures Model() == old(Model()).(stats := old(stats).(
        rejected := old(stats).rejected + 1,
        invalidPublish := old(stats).invalidPublish + invalid,
        duplicatePublish := old(stats).duplicatePublish + duplicate))
    {
      ghost var before := Model();
      stats := stats.(rejected := stats.rejected + 1,
                      invalidPublish := stats.invalidPublish + invalid,
                      duplicatePublish := stats.duplicatePublish + duplicate);
      assert forall key, c :: Releasable(Model(), key, c) <==> Releasable(before, key, c);
    }

    // On success the leases handed out are exactly those asked for.
    method Publish(frame: Frame, mask: nat)
      returns (ok: bool, video: FrameLease?, inference: FrameLease?)
      requires Valid()
      modifies this`stats, this`leases, slots
      ensures Valid()
      ensures var wanted := DecodeMask(mask);
              var wellFormed := ValidFrame(frame, requireDmabuf) && mask <= ALL_CONSUMERS_MASK;
              && (Model(), ok) == CaptureBuffers.Publish(old(Model()), PublishInput(frame, wanted, wellFormed))
              && (video != null <==> ok && wanted.video)
              && (inference != null <==> ok && wanted.inference)
      ensures video != null ==> video.IsValid() && fresh(video)
                                && video.key == KeyOf(frame) && video.consumer == VideoEncoder
      ensures inference != null ==> inference.IsValid() && fresh(inference)
                                    && inference.key == KeyOf(frame) && inference.consumer == Inference
      ensures leases == old(leases) + (if video != null then {video} else {})
                                    + (if inference != null then {inference} else {})
    {
      var wanted := DecodeMask(mask);
      ok, video, inference := false, null, null;
      if !ValidFrame(frame, requireDmabuf) || mask > ALL_CONSUMERS_MASK
         || wanted == NOBODY || frame.index >= slots.Length {
        Reject(1, 0);
      } else if closed {
        Reject(0, 0);
      } else if slots[frame.index].Occupied? {
        Reject(0, 1);
      } else {
        video, inference := Admit(frame, wanted);
        ok := true;
      }
    }
  }
}
