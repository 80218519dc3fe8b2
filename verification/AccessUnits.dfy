/**
 Assembly of HEVC access units for the network sink, and the scan for parameter
 sets (Annex B byte stream and NAL unit types 32, 33, 34 of ITU-T H.265).
 */
module AccessUnits {
  import opened Octets
  import Q = BoundedQueues

  // ---- the scan ----

  datatype Sets = Sets(vps: bool, sps: bool, pps: bool)

  const NO_SETS := Sets(false, false, false)

  predicate Complete(sets: Sets) {
    sets.vps && sets.sps && sets.pps
  }

  function AnnexBStartCodeSize(bytes: seq<byte>, offset: nat): (size: nat)
    ensures size == 0 || size == 3 || size == 4
    ensures size > 0 ==> offset + size <= |bytes| && bytes[offset + size - 1] == 1
                         && forall k :: offset <= k < offset + size - 1 ==> bytes[k] == 0
    ensures size == 0 ==>
              !(offset + 3 <= |bytes| && bytes[offset] == 0 && bytes[offset + 1] == 0 && bytes[offset + 2] == 1)
  {
    if offset + 3 <= |bytes| && bytes[offset] == 0 && bytes[offset + 1] == 0 && bytes[offset + 2] == 1 then 3
    else if offset + 4 <= |bytes| && bytes[offset] == 0 && bytes[offset + 1] == 0 && bytes[offset + 2] == 0
            && bytes[offset + 3] == 1 then 4
    else 0
  }

  function NalType(header: byte): byte {
    (header >> 1) & 0x3f
  }

  function WithNal(sets: Sets, header: byte): Sets {
    Sets(sets.vps || NalType(header) == 32, sets.sps || NalType(header) == 33, sets.pps || NalType(header) == 34)
  }

  // The size of the start code at `offset` when a NAL header follows it, else 0.
  function StartCodeBeforeHeader(bytes: seq<byte>, offset: nat): (size: nat)
    ensures size > 0 ==> 3 <= size && offset + size < |bytes|
  {
    var size := AnnexBStartCodeSize(bytes, offset);
    if size == 0 || offset + size >= |bytes| then 0 else size
  }

  // What the loop finds from `offset` on.
  function Scan(bytes: seq<byte>, offset: nat, sets: Sets): Sets
    decreases |bytes| - offset
  {
    if offset >= |bytes| then sets
    else
      var size := StartCodeBeforeHeader(bytes, offset);
      if size == 0 then Scan(bytes, offset + 1, sets)
      else Scan(bytes, offset + size + 1, WithNal(sets, bytes[offset + size]))
  }

  function ParameterSets(bytes: seq<byte>): Sets {
    Scan(bytes, 0, NO_SETS)
  }

  method FindHevcParameterSets(bytes: seq<byte>) returns (sets: Sets)
    ensures sets == ParameterSets(bytes)
  {
    sets := NO_SETS;
    var offset := 0;
    while offset < |bytes|
      invariant 0 <= offset
      invariant Scan(bytes, offset, sets) == ParameterSets(bytes)
      decreases |bytes| - offset
    {
      var startCode := AnnexBStartCodeSize(bytes, offset);
      if startCode == 0 || offset + startCode >= |bytes| {
        offset := offset + 1;
        continue;
      }
      sets := WithNal(sets, bytes[offset + startCode]);
      offset := offset + startCode;
      offset := offset + 1;
    }
  }

  predicate NalAt(bytes: seq<byte>, at: nat, nalType: byte) {
    var size := StartCodeBeforeHeader(bytes, at);
    size > 0 && NalType(bytes[at + size]) == nalType
  }

  // A set is reported only when its NAL unit is there.
  ghost predicate HasNal(bytes: seq<byte>, nalType: byte) {
    exists at: nat :: at < |bytes| && NalAt(bytes, at, nalType)
  }

  lemma {:induction false} FoundIsThere(bytes: seq<byte>, offset: nat, sets: Sets)
    ensures Scan(bytes, offset, sets).vps ==> sets.vps || HasNal(bytes, 32)
    ensures Scan(bytes, offset, sets).sps ==> sets.sps || HasNal(bytes, 33)
    ensures Scan(bytes, offset, sets).pps ==> sets.pps || HasNal(bytes, 34)
    decreases |bytes| - offset
  {
    if offset < |bytes| {
      var size := StartCodeBeforeHeader(bytes, offset);
      if size == 0 {
        FoundIsThere(bytes, offset + 1, sets);
      } else {
        FoundIsThere(bytes, offset + size + 1, WithNal(sets, bytes[offset + size]));
        assert NalAt(bytes, offset, NalType(bytes[offset + size]));
      }
    }
  }

  predicate Includes(more: Sets, fewer: Sets) {
    (fewer.vps ==> more.vps) && (fewer.sps ==> more.sps) && (fewer.pps ==> more.pps)
  }

  lemma {:induction false} ScanGrows(bytes: seq<byte>, offset: nat, sets: Sets)
    ensures Includes(Scan(bytes, offset, sets), sets)
    decreases |bytes| - offset
  {
    if offset < |bytes| {
      var size := StartCodeBeforeHeader(bytes, offset);
      if size == 0 {
        ScanGrows(bytes, offset + 1, sets);
      } else {
        ScanGrows(bytes, offset + size + 1, WithNal(sets, bytes[offset + size]));
      }
    }
  }

  // Fewer than four bytes hold no start code with a header.
  lemma {:induction false} NothingNearEnd(bytes: seq<byte>, offset: nat, sets: Sets)
    requires offset + 3 >= |bytes|
    ensures Scan(bytes, offset, sets) == sets
    decreases |bytes| - offset
  {
    if offset < |bytes| {
      NothingNearEnd(bytes, offset + 1, sets);
    }
  }

  // Appending bytes changes the step of the scan only where nothing more can be found.
  lemma SameStep(bytes: seq<byte>, tail: seq<byte>, offset: nat)
    requires offset < |bytes|
    ensures StartCodeBeforeHeader(bytes, offset) > 0 ==>
              StartCodeBeforeHeader(bytes + tail, offset) == StartCodeBeforeHeader(bytes, offset)
    ensures StartCodeBeforeHeader(bytes, offset) == 0 && StartCodeBeforeHeader(bytes + tail, offset) > 0 ==>
              offset + 4 >= |bytes|
  {
    assert forall k :: 0 <= k < |bytes| ==> (bytes + tail)[k] == bytes[k];
  }

  // The scan of an extended stream finds everything the scan of its beginning finds.
  lemma {:induction false} ScanOfPrefix(bytes: seq<byte>, tail: seq<byte>, offset: nat, sets: Sets, more: Sets)
    requires Includes(more, sets)
    ensures Includes(Scan(bytes + tail, offset, more), Scan(bytes, offset, sets))
    decreases |bytes| - offset
  {
    if offset >= |bytes| {
      ScanGrows(bytes + tail, offset, more);
    } else {
      SameStep(bytes, tail, offset);
      var size, size' := StartCodeBeforeHeader(bytes, offset), StartCodeBeforeHeader(bytes + tail, offset);
      if size > 0 {
        ScanOfPrefix(bytes, tail, offset + size + 1, WithNal(sets, bytes[offset + size]),
                     WithNal(more, bytes[offset + size]));
      } else if size' == 0 {
        ScanOfPrefix(bytes, tail, offset + 1, sets, more);
      } else {
        NothingNearEnd(bytes, offset + 1, sets);
        ScanGrows(bytes + tail, offset, more);
      }
    }
  }

  // A complete configuration makes whatever follows it complete.
  lemma InjectionCompletes(config: seq<byte>, data: seq<byte>)
    requires Complete(ParameterSets(config))
    ensures Complete(ParameterSets(config + data))
  {
    ScanOfPrefix(config, data, 0, NO_SETS, NO_SETS);
  }

  // ---- assembly ----

  // One partition packet of the encoder.
  datatype Fragment = Fragment(ptsUs: int, dtsUs: int, durationUs: int, keyframe: bool,
                               codecConfig: bool, endOfFrame: bool, bytes: seq<byte>)

  datatype Kind = VideoKind | AudioKind

  datatype NetworkPacket = NetworkPacket(
    kind: Kind, data: seq<byte>, pts: int, dts: int, duration: int, keyframe: bool)

  const NO_PACKET := NetworkPacket(VideoKind, [], 0, 0, 0, false)

  // `parts` and `units` are history: the fragments of the pending unit, and of every
  // unit put into the queue, with the packet that was queued.
  datatype Unit = Unit(parts: seq<Fragment>, packet: NetworkPacket)

  datatype Sink = Sink(
    config: seq<byte>, accepting: bool, fatal: bool, have: bool, pending: NetworkPacket,
    queue: Q.Queue<NetworkPacket>, received: nat, enqueued: nat, injections: nat,
    parts: seq<Fragment>, units: seq<Unit>)

  function WithError(s: Sink): Sink {
    s.(fatal := true, accepting := false, queue := Q.Stopped(s.queue))
  }

  function Started(f: Fragment): NetworkPacket {
    NetworkPacket(VideoKind, [], f.ptsUs, f.dtsUs, f.durationUs, f.keyframe)
  }

  predicate NeedsInjection(unit: NetworkPacket) {
    unit.keyframe && !Complete(ParameterSets(unit.data))
  }

  function Injected(config: seq<byte>, unit: NetworkPacket): NetworkPacket {
    if NeedsInjection(unit) then unit.(data := config + unit.data) else unit
  }

  function Assembled(s: Sink, f: Fragment): Sink {
    var base := if s.have then s.pending.(keyframe := s.pending.keyframe || f.keyframe) else Started(f);
    s.(have := true, pending := base.(data := base.data + f.bytes),
       parts := (if s.have then s.parts else []) + [f])
  }

  // The pending unit is complete: into the queue, if there is room.
  function Completed(s: Sink): (Sink, bool) {
    var packet := Injected(s.config, s.pending);
    var (queue, ok) := Q.Pushed(s.queue, packet);
    var cleared := s.(pending := NO_PACKET, have := false, parts := [], queue := queue);
    if !ok then (WithError(cleared), false)
    else
      (cleared.(enqueued := s.enqueued + 1,
                injections := s.injections + (if NeedsInjection(s.pending) then 1 else 0),
                units := s.units + [Unit(s.parts, packet)]), true)
  }

  function Received(s: Sink): Sink {
    s.(received := s.received + 1)
  }

  function Written(s: Sink, f: Fragment): (Sink, bool) {
    if f.codecConfig then (s, true)
    else if !s.accepting || f.bytes == [] || f.durationUs <= 0 then (s, false)
    else
      var counted := Received(s);
      if s.have && (f.ptsUs != s.pending.pts || f.dtsUs != s.pending.dts) then (WithError(counted), false)
      else
        var assembled := Assembled(counted, f);
        if !f.endOfFrame then (assembled, true) else Completed(assembled)
  }

  function AudioWritten(s: Sink, packet: NetworkPacket): (Sink, bool) {
    if !s.accepting then (s, false)
    else
      var (queue, ok) := Q.Pushed(s.queue, packet.(kind := AudioKind));
      if ok then (s.(queue := queue), true) else (WithError(s.(queue := queue)), false)
  }

  function NewSink(config: seq<byte>, capacity: nat): Sink {
    Sink(config, true, false, false, NO_PACKET, Q.Empty(capacity), 0, 0, 0, [], [])
  }

  class FfmpegMpegTsUdpSink {
    const config: seq<byte>
    const queue: Q.BoundedQueue<NetworkPacket>
    var accepting: bool
    var fatal: bool
    var havePendingVideo: bool
    var pendingVideo: NetworkPacket
    var received: nat
    var enqueued: nat
    var injections: nat
    ghost var parts: seq<Fragment>
    ghost var units: seq<Unit>

    ghost predicate Valid()
      reads this, queue, queue.slots
    {
      queue.Valid()
    }

    ghost function Model(): Sink
      requires Valid()
      reads this, queue, queue.slots
    {
      Sink(config, accepting, fatal, havePendingVideo, pendingVideo, queue.Model(), received, enqueued,
           injections, parts, units)
    }

    constructor (config: seq<byte>, capacity: nat)
      requires capacity > 0 && Complete(ParameterSets(config)) // otherwise Initialize throws
      ensures Valid() && fresh(queue) && fresh(queue.slots)
      ensures Model() == NewSink(config, capacity)
    {
      this.config := config;
      queue := new Q.BoundedQueue<NetworkPacket>(capacity);
      accepting, fatal, havePendingVideo, pendingVideo := true, false, false, NO_PACKET;
      received, enqueued, injections, parts, units := 0, 0, 0, [], [];
    }

    method SetError()
      requires Valid()
      modifies this, queue`stopped
      ensures Valid() && Model() == WithError(old(Model()))
    {
      fatal := true;
      accepting := false;
      queue.Stop();
    }

    // The injection of parameter sets in Write.
    method SelfContained(unit: NetworkPacket) returns (packet: NetworkPacket, injected: bool)
      ensures packet == Injected(config, unit) && injected == NeedsInjection(unit)
    {
      packet, injected := unit, false;
      if unit.keyframe {
        var found := FindHevcParameterSets(unit.data);
        if !Complete(found) {
          packet := unit.(data := config + unit.data);
          injected := true;
        }
      }
    }

    method ClearPending()
      requires Valid()
      modifies this`pendingVideo, this`havePendingVideo, this`parts
      ensures Valid() && Model() == old(Model()).(pending := NO_PACKET, have := false, parts := [])
    {
      pendingVideo := NO_PACKET;
      havePendingVideo := false;
      parts := [];
    }

    // The end of Write, after the last fragment.
    method EnqueueVideo() returns (ok: bool)
      requires Valid()
      modifies this, queue, queue.slots
      ensures Valid() && (Model(), ok) == Completed(old(Model()))
    {
      var complete, parameterSetsInjected := SelfContained(pendingVideo);
      ghost var unit := Unit(parts, complete);
      ClearPending();
      ok := queue.TryPush(complete);
      assert Model() == old(Model()).(pending := NO_PACKET, have := false, parts := [], queue := Model().queue);
      if !ok {
        SetError();
        return;
      }
      enqueued := enqueued + 1;
      units := units + [unit];
      if parameterSetsInjected {
        injections := injections + 1;
      }
    }

    method AddFragment(f: Fragment)
      requires Valid()
      modifies this
      ensures Valid() && Model() == Assembled(old(Model()), f)
    {
      if !havePendingVideo {
        pendingVideo := Started(f);
        havePendingVideo := true;
        parts := [];
      } else {
        pendingVideo := pendingVideo.(keyframe := pendingVideo.keyframe || f.keyframe);
      }
      pendingVideo := pendingVideo.(data := pendingVideo.data + f.bytes);
      parts := parts + [f];
    }

    method Write(f: Fragment) returns (ok: bool)
      requires Valid()
      modifies this, queue, queue.slots
      ensures Valid() && (Model(), ok) == Written(old(Model()), f)
    {
      if f.codecConfig {
        return true;
      }
      if !accepting || f.bytes == [] || f.durationUs <= 0 {
        return false;
      }
      received := received + 1;
      if havePendingVideo && (f.ptsUs != pendingVideo.pts || f.dtsUs != pendingVideo.dts) {
        SetError();
        return false;
      }
      AddFragment(f);
      if !f.endOfFrame {
        return true;
      }
      ok := EnqueueVideo();
    }
  }

  // ---- what every call keeps ----

  function Joined(parts: seq<Fragment>): seq<byte> {
    if parts == [] then [] else Joined(parts[..|parts| - 1]) + parts[|parts| - 1].bytes
  }

  ghost predicate AnyKey(parts: seq<Fragment>) {
    exists i :: 0 <= i < |parts| && parts[i].keyframe
  }

  // The packet of some fragments: their bytes in order, their common times, and a
  // keyframe when any of them is one.
  ghost predicate Assembles(packet: NetworkPacket, parts: seq<Fragment>) {
    && parts != [] && packet.kind == VideoKind
    && packet.data == Joined(parts) && (packet.keyframe <==> AnyKey(parts))
    && packet.duration == parts[0].durationUs
    && forall i :: 0 <= i < |parts| ==> parts[i].ptsUs == packet.pts && parts[i].dtsUs == packet.dts
  }

  // A queued unit: the assembled fragments, preceded by the configuration exactly when
  // they are a keyframe without all parameter sets; a keyframe is self-contained.
  ghost predicate WellQueued(config: seq<byte>, unit: Unit) {
    exists assembled :: Assembles(assembled, unit.parts)
      && unit.packet == Injected(config, assembled)
      && (unit.packet.keyframe ==> Complete(ParameterSets(unit.packet.data)))
      && unit.parts[|unit.parts| - 1].endOfFrame
      && forall i :: 0 <= i < |unit.parts| - 1 ==> !unit.parts[i].endOfFrame
  }

  ghost predicate Inv(s: Sink) {
    && Complete(ParameterSets(s.config))
    && (if s.have then Assembles(s.pending, s.parts) && (forall i :: 0 <= i < |s.parts| ==> !s.parts[i].endOfFrame)
        else s.parts == [])
    && (forall i :: 0 <= i < |s.units| ==> WellQueued(s.config, s.units[i]))
    && s.enqueued == |s.units|
  }

  lemma AssemblesMore(packet: NetworkPacket, parts: seq<Fragment>, f: Fragment)
    requires Assembles(packet, parts) && f.ptsUs == packet.pts && f.dtsUs == packet.dts
    ensures Assembles(packet.(keyframe := packet.keyframe || f.keyframe, data := packet.data + f.bytes), parts + [f])
  {
    var more := parts + [f];
    assert more[..|parts|] == parts;
    if AnyKey(parts) {
      var i :| 0 <= i < |parts| && parts[i].keyframe;
      assert more[i].keyframe;
    }
    if f.keyframe {
      assert more[|parts|].keyframe;
    }
    if AnyKey(more) {
      var i :| 0 <= i < |more| && more[i].keyframe;
      if i < |parts| {
        assert parts[i].keyframe;
      }
    }
  }

  lemma AssemblesOne(f: Fragment)
    ensures Assembles(Started(f).(data := f.bytes), [f])
  {
    assert Joined([f]) == f.bytes by {
      assert [f][..0] == [] && [] + f.bytes == f.bytes;
    }
    assert [f][0] == f;
  }

  lemma CompletedKeeps(s: Sink)
    requires Complete(ParameterSets(s.config)) && s.enqueued == |s.units|
    requires Assembles(s.pending, s.parts) && s.parts[|s.parts| - 1].endOfFrame
    requires forall i :: 0 <= i < |s.parts| - 1 ==> !s.parts[i].endOfFrame
    requires forall i :: 0 <= i < |s.units| ==> WellQueued(s.config, s.units[i])
    ensures Inv(Completed(s).0)
  {
    if NeedsInjection(s.pending) {
      InjectionCompletes(s.config, s.pending.data);
    }
    assert WellQueued(s.config, Unit(s.parts, Injected(s.config, s.pending)));
  }

  // What an assembled fragment leaves pending.
  lemma AssembledKeeps(s: Sink, f: Fragment)
    requires Inv(s) && (s.have ==> f.ptsUs == s.pending.pts && f.dtsUs == s.pending.dts)
    ensures var next := Assembled(s, f);
      && Assembles(next.pending, next.parts) && next.parts[|next.parts| - 1] == f
      && forall i :: 0 <= i < |next.parts| - 1 ==> !next.parts[i].endOfFrame
  {
    if s.have {
      AssemblesMore(s.pending, s.parts, f);
    } else {
      AssemblesOne(f);
      assert [] + f.bytes == f.bytes && [] + [f] == [f];
    }
  }

  lemma WrittenKeeps(s: Sink, f: Fragment)
    requires Inv(s)
    ensures Inv(Written(s, f).0)
  {
    var counted := Received(s);
    ReceivedKeeps(s);
    if f.codecConfig || !s.accepting || f.bytes == [] || f.durationUs <= 0 {
    } else if s.have && (f.ptsUs != s.pending.pts || f.dtsUs != s.pending.dts) {
      ErrorKeeps(counted);
    } else {
      FragmentKeeps(counted, f);
    }
  }

  lemma ReceivedKeeps(s: Sink)
    requires Inv(s)
    ensures Inv(Received(s))
  {
  }

  lemma ErrorKeeps(s: Sink)
    requires Inv(s)
    ensures Inv(WithError(s))
  {
  }

  lemma FragmentKeeps(s: Sink, f: Fragment)
    requires Inv(s) && (s.have ==> f.ptsUs == s.pending.pts && f.dtsUs == s.pending.dts)
    ensures Inv(if f.endOfFrame then Completed(Assembled(s, f)).0 else Assembled(s, f))
  {
    AssembledKeeps(s, f);
    if f.endOfFrame {
      CompletedKeeps(Assembled(s, f));
    }
  }

  // ---- whole runs ----

  // Calls of the producers, the worker taking a packet, and Stop.
  datatype Call = WriteVideo(f: Fragment) | WriteAudio(packet: NetworkPacket) | Take | Fail | Stop

  function Called(s: Sink, call: Call): Sink {
    match call
    case WriteVideo(f) => Written(s, f).0
    case WriteAudio(packet) => AudioWritten(s, packet).0
    case Take => s.(queue := Q.Popped(s.queue).0)
    case Fail => WithError(s)
    case Stop => s.(accepting := false, queue := Q.Stopped(s.queue))
  }

  function Calls(s: Sink, calls: seq<Call>): Sink {
    if calls == [] then s else Called(Calls(s, calls[..|calls| - 1]), calls[|calls| - 1])
  }

  lemma CalledKeeps(s: Sink, call: Call)
    requires Inv(s)
    ensures Inv(Called(s, call)) && Called(s, call).config == s.config
  {
    match call {
      case WriteVideo(f) => WrittenKeeps(s, f);
      case WriteAudio(_) =>
      case Take =>
      case Fail =>
      case Stop =>
    }
  }

  function VideoOf(packets: seq<NetworkPacket>): seq<NetworkPacket> {
    if packets == [] then []
    else if packets[0].kind.VideoKind? then [packets[0]] + VideoOf(packets[1..])
    else VideoOf(packets[1..])
  }

  lemma {:induction false} VideoSnoc(packets: seq<NetworkPacket>, packet: NetworkPacket)
    ensures VideoOf(packets + [packet]) == VideoOf(packets) + if packet.kind.VideoKind? then [packet] else []
    decreases |packets|
  {
    if packets == [] {
      assert packets + [packet] == [packet] && [packet][1..] == [];
    } else {
      VideoSnoc(packets[1..], packet);
      assert (packets + [packet])[1..] == packets[1..] + [packet];
    }
  }

  function Packets(units: seq<Unit>): seq<NetworkPacket> {
    seq(|units|, i requires 0 <= i < |units| => units[i].packet)
  }

  // The video packets in the queue are those of the last units, in their order; the
  // first n units have been taken out.
  ghost predicate QueuesFrom(s: Sink, n: nat) {
    n <= |s.units| && VideoOf(s.queue.items) == Packets(s.units)[n..]
  }

  lemma CompletedQueues(s: Sink, n: nat)
    requires QueuesFrom(s, n) && s.pending.kind == VideoKind
    ensures QueuesFrom(Completed(s).0, n)
  {
    var packet := Injected(s.config, s.pending);
    var units := s.units + [Unit(s.parts, packet)];
    VideoSnoc(s.queue.items, packet);
    assert Packets(units) == Packets(s.units) + [packet];
    assert Packets(units)[n..] == Packets(s.units)[n..] + [packet];
  }

  lemma CalledQueues(s: Sink, call: Call, n: nat) returns (m: nat)
    requires Inv(s) && QueuesFrom(s, n)
    ensures QueuesFrom(Called(s, call), m)
  {
    m := n;
    match call {
      case WriteVideo(f) => WrittenQueues(s, f, n);
      case WriteAudio(packet) => AudioQueues(s, packet, n);
      case Take => m := TakeQueues(s, n);
      case Fail =>
      case Stop =>
    }
  }

  lemma AudioQueues(s: Sink, packet: NetworkPacket, n: nat)
    requires QueuesFrom(s, n)
    ensures QueuesFrom(AudioWritten(s, packet).0, n)
  {
    VideoSnoc(s.queue.items, packet.(kind := AudioKind));
  }

  lemma TakeQueues(s: Sink, n: nat) returns (m: nat)
    requires QueuesFrom(s, n)
    ensures QueuesFrom(Called(s, Take), m)
  {
    m := n;
    if s.queue.items != [] && s.queue.items[0].kind.VideoKind? {
      assert VideoOf(s.queue.items)[1..] == VideoOf(s.queue.items[1..]);
      m := n + 1;
    }
  }

  lemma WrittenQueues(s: Sink, f: Fragment, n: nat)
    requires Inv(s) && QueuesFrom(s, n)
    ensures QueuesFrom(Written(s, f).0, n)
  {
    var assembled := Assembled(Received(s), f);
    CompletedQueues(assembled, n);
  }

  function AllParts(units: seq<Unit>): seq<Fragment> {
    if units == [] then [] else AllParts(units[..|units| - 1]) + units[|units| - 1].parts
  }

  // The fragments for which Write reported success, in order.
  function Taken(start: Sink, calls: seq<Call>): seq<Fragment> {
    if calls == [] then []
    else
      var front, last := calls[..|calls| - 1], calls[|calls| - 1];
      Taken(start, front) + TakenBy(Calls(start, front), last)
  }

  function TakenBy(s: Sink, call: Call): seq<Fragment> {
    if call.WriteVideo? && !call.f.codecConfig && Written(s, call.f).1 then [call.f] else []
  }

  // Nothing that was taken is lost or reordered while the sink works.
  ghost predicate Kept(s: Sink, taken: seq<Fragment>) {
    && AllParts(s.units) <= taken
    && (s.fatal ==> !s.accepting)
    && (!s.fatal ==> AllParts(s.units) + s.parts == taken)
  }

  lemma CompletedKept(s: Sink, taken: seq<Fragment>)
    requires !s.fatal && AllParts(s.units) + s.parts == taken
    ensures var (after, ok) := Completed(s);
      && (ok ==> Kept(after, taken))
      && (!ok ==> after.fatal && !after.accepting && after.units == s.units)
  {
    var unit := Unit(s.parts, Injected(s.config, s.pending));
    assert (s.units + [unit])[..|s.units|] == s.units;
    assert AllParts(s.units + [unit]) == AllParts(s.units) + s.parts;
  }

  lemma CalledKept(s: Sink, call: Call, taken: seq<Fragment>)
    requires Inv(s) && Kept(s, taken)
    ensures Kept(Called(s, call), taken + TakenBy(s, call))
  {
    if call.WriteVideo? && !call.f.codecConfig && s.accepting && call.f.bytes != [] && call.f.durationUs > 0 {
      var f := call.f;
      if !(s.have && (f.ptsUs != s.pending.pts || f.dtsUs != s.pending.dts)) {
        var assembled := Assembled(Received(s), f);
        assert assembled.parts == s.parts + [f];
        assert AllParts(s.units) + (s.parts + [f]) == taken + [f];
        if f.endOfFrame {
          CompletedKept(assembled, taken + [f]);
        }
      }
    }
  }

  // Over any run every queued unit is well formed, every queued keyframe carries VPS,
  // SPS and PPS, and the video packets in the queue are those of the last units.
  lemma {:induction false} QueuedUnitsAreWellFormed(config: seq<byte>, capacity: nat, calls: seq<Call>)
    requires Complete(ParameterSets(config))
    ensures Inv(Calls(NewSink(config, capacity), calls))
    ensures Calls(NewSink(config, capacity), calls).config == config
    ensures exists n :: QueuesFrom(Calls(NewSink(config, capacity), calls), n)
    decreases |calls|
  {
    if calls == [] {
      assert QueuesFrom(NewSink(config, capacity), 0);
    } else {
      var front := calls[..|calls| - 1];
      QueuedUnitsAreWellFormed(config, capacity, front);
      var s := Calls(NewSink(config, capacity), front);
      var n :| QueuesFrom(s, n);
      var m := CalledQueues(s, calls[|calls| - 1], n);
      CalledKeeps(s, calls[|calls| - 1]);
    }
  }

  // Over any run the units are, in order, the fragments that Write took; while there is
  // no fatal error those not in a unit yet are exactly the pending ones.
  lemma {:induction false} NoFragmentIsLost(config: seq<byte>, capacity: nat, calls: seq<Call>)
    requires Complete(ParameterSets(config))
    ensures Kept(Calls(NewSink(config, capacity), calls), Taken(NewSink(config, capacity), calls))
    decreases |calls|
  {
    if calls != [] {
      var front := calls[..|calls| - 1];
      NoFragmentIsLost(config, capacity, front);
      QueuedUnitsAreWellFormed(config, capacity, front);
      var start := NewSink(config, capacity);
      CalledKept(Calls(start, front), calls[|calls| - 1], Taken(start, front));
    }
  }
}
