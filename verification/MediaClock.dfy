/** The common media timeline: sample counts to nanoseconds, and stamping of audio chunks. */
module MediaClocks {
  import opened Wrappers
  import opened Arithmetic
  import opened Octets

  const NS_PER_SECOND := 1_000_000_000
  const INT64_MAX := 0x7FFF_FFFF_FFFF_FFFF
  const UINT64_MAX := 0xFFFF_FFFF_FFFF_FFFF

  type uint16 = x: int | 0 <= x < 0x1_0000
  type uint32 = x: int | 0 <= x < 0x1_0000_0000
  type uint64 = x: int | 0 <= x <= UINT64_MAX
  type int64 = x: int | -INT64_MAX - 1 <= x <= INT64_MAX

  datatype Chunk = Chunk(
    rate: uint32, channels: uint16, pcm: seq<byte>, first: uint64, count: uint32,
    statusValid: bool, statusNs: int64, delayFrames: int64, discontinuity: bool)

  predicate ValidChunk(c: Chunk) {
    c.rate != 0 && c.channels != 0 && c.count != 0 && |c.pcm| == c.count * (c.channels * 2)
  }

  // The time of `frames` sample frames, rounded down.
  function Ns(frames: nat, rate: nat): nat
    requires rate > 0
  {
    frames * NS_PER_SECOND / rate
  }

  // FramesToNs throws for a zero rate and for a result that does not fit.
  function Representable(frames: nat, rate: nat): Option<nat> {
    if rate == 0 || Ns(frames, rate) > INT64_MAX then None else Some(Ns(frames, rate))
  }

  // Splitting off whole seconds does not change the rounding.
  lemma SplitSeconds(frames: nat, rate: nat, q: int, m: int)
    requires rate > 0 && q == frames / rate && m == frames % rate
    ensures 0 <= q <= frames && 0 <= m < rate
    ensures Ns(frames, rate) == q * NS_PER_SECOND + m * NS_PER_SECOND / rate
  {
    Division(frames, rate);
    QuotientBounds(frames, rate);
    assert frames * NS_PER_SECOND == rate * (q * NS_PER_SECOND) + m * NS_PER_SECOND;
    DivMultiple(q * NS_PER_SECOND, m * NS_PER_SECOND, rate);
  }

  lemma RemainderFits(m: nat, rate: uint32)
    requires m < rate
    ensures m * NS_PER_SECOND <= UINT64_MAX
    ensures 0 <= m * NS_PER_SECOND / rate < NS_PER_SECOND
  {
    QuotientBounds(m * NS_PER_SECOND, rate);
    QuotientBelow(m * NS_PER_SECOND, rate, NS_PER_SECOND);
  }

  // The sum and its range check, on 64-bit values.
  method AssembleNs(wholeSeconds: uint64, part: uint64) returns (ns: Option<int64>)
    requires part < NS_PER_SECOND
    ensures var exact := wholeSeconds * NS_PER_SECOND + part;
            ns == if exact > INT64_MAX then None else Some(exact)
  {
    if wholeSeconds > INT64_MAX / NS_PER_SECOND {
      return None;
    }
    var wholeNs: uint64 := wholeSeconds * NS_PER_SECOND;
    var total: uint64 := wholeNs + part;
    if total > INT64_MAX {
      return None;
    }
    return Some(total);
  }

  // Exactly the floor, or a throw when that does not fit; every intermediate value
  // fits its 64 bits too.
  method FramesToNs(frames: uint64, rate: uint32) returns (ns: Option<int64>)
    ensures ns == Representable(frames, rate)
  {
    if rate == 0 {
      return None;
    }
    SplitSeconds(frames, rate, frames / rate, frames % rate);
    var wholeSeconds: uint64 := frames / rate;
    var remainderFrames: uint64 := frames % rate;
    RemainderFits(remainderFrames, rate);
    var scaled: uint64 := remainderFrames * NS_PER_SECOND;
    ns := AssembleNs(wholeSeconds, scaled / rate);
  }

  // ---- the clock ----

  datatype Timing = Timing(ptsNs: int64, durationNs: int64, firstSampleMonoNs: int64,
                           observedMonoNs: int64, timingErrorNs: int64, reanchored: bool)

  datatype Clock = Clock(
    epoch: int64, anchorValid: bool, anchorIndex: uint64, anchorMono: int64,
    stamped: nat, reanchors: nat, discontinuities: nat, failures: nat,
    latestError: int64, maximumError: int64, lastPts: int64, lastEndPts: int64)

  function Fresh(epoch: int64): Clock {
    Clock(epoch, false, 0, 0, 0, 0, 0, 0, 0, 0, 0, 0)
  }

  // Overflow: a signed 64-bit sum or difference does not fit, which C++ leaves undefined.
  datatype Outcome = Stamped(timing: Timing) | Thrown | Overflow

  datatype Prediction = NoPrediction | Overflowed | At(mono: int64)

  predicate FitsInt64(x: int) {
    -INT64_MAX - 1 <= x <= INT64_MAX
  }

  // The sample-clock prediction; it throws before the anchor and when the distance
  // from the anchor does not fit, but does not check the sum.
  function Predicted(k: Clock, index: uint64, rate: uint32): Prediction {
    if !k.anchorValid || index < k.anchorIndex then NoPrediction
    else
      match Representable(index - k.anchorIndex, rate)
      case None => NoPrediction
      case Some(ns) => if FitsInt64(k.anchorMono + ns) then At(k.anchorMono + ns) else Overflowed
  }

  function Failed(k: Clock): (Clock, Outcome) {
    (k.(failures := k.failures + 1), Thrown)
  }

  function Reanchored(k: Clock, c: Chunk, observed: int64): Clock {
    k.(anchorValid := true, anchorIndex := c.first, anchorMono := observed,
       reanchors := k.reanchors + 1,
       discontinuities := k.discontinuities + if c.discontinuity then 1 else 0)
  }

  function Abs(x: int64): int64 {
    if x == -INT64_MAX - 1 then INT64_MAX else if x < 0 then -x else x
  }

  function Max(a: int64, b: int64): int64 {
    if a < b then b else a
  }

  function Interval(k: Clock, observed: int64, first: int64, end: int64, reanchored: bool): (Clock, Outcome)
    requires k.epoch > 0
  {
    if first < k.epoch || end <= first then Failed(k)
    else if k.stamped > 0 && first - k.epoch < k.lastEndPts then Failed(k)
    else if !FitsInt64(observed - first) then (k, Overflow)
    else
      var error := observed - first;
      (k.(latestError := error, maximumError := Max(k.maximumError, Abs(error)),
          lastPts := first - k.epoch, lastEndPts := end - k.epoch, stamped := k.stamped + 1),
       Stamped(Timing(first - k.epoch, end - first, first, observed, error, reanchored)))
  }

  predicate MustReanchor(k: Clock, c: Chunk) {
    !k.anchorValid || c.discontinuity
  }

  // With the anchor in place: predict both ends of the chunk.
  function StampAnchored(k: Clock, c: Chunk, observed: int64, reanchored: bool): (Clock, Outcome)
    requires k.epoch > 0
  {
    match Predicted(k, c.first, c.rate)
    case NoPrediction => (k, Thrown)
    case Overflowed => (k, Overflow)
    case At(first) =>
      if c.first + c.count > UINT64_MAX then (k, Thrown)
      else
        match Predicted(k, c.first + c.count, c.rate)
        case NoPrediction => (k, Thrown)
        case Overflowed => (k, Overflow)
        case At(end) => Interval(k, observed, first, end, reanchored)
  }

  function Stamp(k: Clock, c: Chunk): (Clock, Outcome)
    requires k.epoch > 0
  {
    if !ValidChunk(c) then (k, Thrown)
    else if !c.statusValid || c.statusNs <= 0 || c.delayFrames < 0 then Failed(k)
    else if c.delayFrames + c.count > UINT64_MAX then (k, Thrown)
    else
      match Representable(c.delayFrames + c.count, c.rate)
      case None => (k, Thrown)
      case Some(latency) =>
        var observed := c.statusNs - latency;
        StampAnchored(if MustReanchor(k, c) then Reanchored(k, c, observed) else k,
                      c, observed, MustReanchor(k, c))
  }

  // Exactly when a prediction is made: the distance and the sum both fit.
  lemma PredictionFits(k: Clock, index: uint64, rate: uint32)
    ensures Predicted(k, index, rate).At? <==>
              && k.anchorValid && k.anchorIndex <= index && rate > 0
              && Ns(index - k.anchorIndex, rate) <= INT64_MAX
              && k.anchorMono + Ns(index - k.anchorIndex, rate) <= INT64_MAX
    ensures Predicted(k, index, rate).At? ==>
              Predicted(k, index, rate).mono == k.anchorMono + Ns(index - k.anchorIndex, rate)
  {
  }

  // The sum can overflow although every check passes.
  lemma PredictionCanOverflow()
    ensures var k := Fresh(1).(anchorValid := true, anchorMono := 5_000_000_000);
            Predicted(k, 442_721_857_769_029, 48000) == Overflowed
  {
  }

  class MediaClock {
    const epoch: int64
    var anchorValid: bool
    var anchorIndex: uint64
    var anchorMono: int64
    var stamped: nat
    var reanchors: nat
    var discontinuities: nat
    var failures: nat
    var latestError: int64
    var maximumError: int64
    var lastPts: int64
    var lastEndPts: int64

    ghost predicate Valid() {
      epoch > 0
    }

    ghost function Model(): Clock
      reads this
    {
      Clock(epoch, anchorValid, anchorIndex, anchorMono, stamped, reanchors, discontinuities,
            failures, latestError, maximumError, lastPts, lastEndPts)
    }

    constructor (epoch: int64)
      requires epoch > 0 // MediaClock rejects any other epoch
      ensures Valid() && Model() == Fresh(epoch)
    {
      this.epoch := epoch;
      anchorValid, anchorIndex, anchorMono := false, 0, 0;
      stamped, reanchors, discontinuities, failures := 0, 0, 0, 0;
      latestError, maximumError, lastPts, lastEndPts := 0, 0, 0, 0;
    }

    method PredictAudioMonoNs(index: uint64, rate: uint32) returns (prediction: Prediction)
      ensures prediction == Predicted(Model(), index, rate)
    {
      if !anchorValid || index < anchorIndex {
        return NoPrediction;
      }
      var ns := FramesToNs(index - anchorIndex, rate);
      if ns.None? {
        return NoPrediction;
      }
      return if FitsInt64(anchorMono + ns.value) then At(anchorMono + ns.value) else Overflowed;
    }

    method StampAudio(c: Chunk) returns (outcome: Outcome)
      requires Valid()
      modifies this
      ensures (Model(), outcome) == Stamp(old(Model()), c)
    {
      if c.rate == 0 || c.channels == 0 || c.count == 0 || |c.pcm| != c.count * (c.channels * 2) {
        return Thrown;
      }
      if !c.statusValid || c.statusNs <= 0 || c.delayFrames < 0 {
        failures := failures + 1;
        return Thrown;
      }
      if c.delayFrames > UINT64_MAX - c.count {
        return Thrown;
      }
      var latency := FramesToNs(c.delayFrames + c.count, c.rate);
      if latency.None? {
        return Thrown;
      }
      var observed := c.statusNs - latency.value;
      outcome := StampObserved(c, observed);
    }

    // StampAudio under the lock.
    method StampObserved(c: Chunk, observed: int64) returns (outcome: Outcome)
      requires Valid()
      modifies this
      ensures var k := old(Model());
        (Model(), outcome) == StampAnchored(if MustReanchor(k, c) then Reanchored(k, c, observed) else k,
                                            c, observed, MustReanchor(k, c))
    {
      var reanchor := !anchorValid || c.discontinuity;
      if reanchor {
        anchorValid := true;
        anchorIndex := c.first;
        anchorMono := observed;
        reanchors := reanchors + 1;
        if c.discontinuity {
          discontinuities := discontinuities + 1;
        }
      }
      var first := PredictAudioMonoNs(c.first, c.rate);
      if !first.At? {
        return if first.NoPrediction? then Thrown else Overflow;
      }
      if (c.first + c.count) % (UINT64_MAX + 1) < c.first {
        return Thrown;
      }
      var end := PredictAudioMonoNs(c.first + c.count, c.rate);
      if !end.At? {
        return if end.NoPrediction? then Thrown else Overflow;
      }
      outcome := RecordInterval(observed, first.mono, end.mono, reanchor);
    }

    // The last checks of StampAudio and the new interval.
    method RecordInterval(observed: int64, first: int64, end: int64, reanchor: bool) returns (outcome: Outcome)
      requires Valid()
      modifies this
      ensures (Model(), outcome) == Interval(old(Model()), observed, first, end, reanchor)
    {
      if first < epoch || end <= first {
        failures := failures + 1;
        return Thrown;
      }
      if stamped > 0 && first - epoch < lastEndPts {
        failures := failures + 1;
        return Thrown;
      }
      if !FitsInt64(observed - first) {
        return Overflow;
      }
      latestError := observed - first;
      maximumError := Max(maximumError, Abs(latestError));
      lastPts := first - epoch;
      lastEndPts := end - epoch;
      stamped := stamped + 1;
      outcome := Stamped(Timing(first - epoch, end - first, first, observed, latestError, reanchor));
    }
  }

  // ---- whole runs ----

  // One call that was accepted.
  datatype Accepted = Accepted(chunk: Chunk, timing: Timing, anchorIndex: uint64, anchorMono: int64)

  function End(a: Accepted): int {
    a.timing.ptsNs + a.timing.durationNs
  }

  datatype Run = Run(clock: Clock, accepted: seq<Accepted>)

  function Called(r: Run, c: Chunk): (after: Run)
    requires r.clock.epoch > 0
    ensures after.clock.epoch == r.clock.epoch
  {
    var (after, outcome) := Stamp(r.clock, c);
    Run(after, match outcome
               case Thrown => r.accepted
               case Overflow => r.accepted
               case Stamped(t) => r.accepted + [Accepted(c, t, after.anchorIndex, after.anchorMono)])
  }

  function Calls(epoch: int64, chunks: seq<Chunk>): (r: Run)
    requires epoch > 0
    ensures r.clock.epoch == epoch
  {
    if chunks == [] then Run(Fresh(epoch), [])
    else Called(Calls(epoch, chunks[..|chunks| - 1]), chunks[|chunks| - 1])
  }

  // What one accepted call records: the chunk's interval on the sample clock of its anchor.
  ghost predicate OnAnchor(a: Accepted, epoch: int64) {
    && a.chunk.rate > 0 && a.anchorIndex <= a.chunk.first
    && a.timing.ptsNs == a.anchorMono - epoch + Ns(a.chunk.first - a.anchorIndex, a.chunk.rate)
    && End(a) == a.anchorMono - epoch + Ns(a.chunk.first + a.chunk.count - a.anchorIndex, a.chunk.rate)
    && 0 <= a.timing.ptsNs < End(a)
  }

  ghost predicate Ordered(r: Run) {
    && (forall i :: 0 <= i < |r.accepted| ==> OnAnchor(r.accepted[i], r.clock.epoch))
    && (forall i, j :: 0 <= i < j < |r.accepted| ==> End(r.accepted[i]) <= r.accepted[j].timing.ptsNs)
    && r.clock.stamped == |r.accepted|
    && (r.accepted != [] ==> r.clock.lastEndPts == End(r.accepted[|r.accepted| - 1]))
  }

  lemma StampedFollows(k: Clock, c: Chunk, after: Clock, t: Timing)
    requires k.epoch > 0 && Stamp(k, c) == (after, Stamped(t))
    ensures 0 <= t.ptsNs && 0 < t.durationNs && after.lastEndPts == t.ptsNs + t.durationNs
    ensures k.stamped > 0 ==> k.lastEndPts <= t.ptsNs
    ensures after.stamped == k.stamped + 1 && after.epoch == k.epoch
  {
  }

  lemma RefusedKeeps(k: Clock, c: Chunk, after: Clock, outcome: Outcome)
    requires k.epoch > 0 && Stamp(k, c) == (after, outcome) && !outcome.Stamped?
    ensures after.stamped == k.stamped && after.lastEndPts == k.lastEndPts && after.epoch == k.epoch
  {
  }

  lemma AppendOrdered(r: Run, a: Accepted, after: Clock)
    requires Ordered(r) && OnAnchor(a, r.clock.epoch)
    requires after.epoch == r.clock.epoch && after.stamped == r.clock.stamped + 1 && after.lastEndPts == End(a)
    requires r.clock.stamped > 0 ==> r.clock.lastEndPts <= a.timing.ptsNs
    ensures Ordered(Run(after, r.accepted + [a]))
  {
    forall i | 0 <= i < |r.accepted| ensures End(r.accepted[i]) <= a.timing.ptsNs {
      var last := r.accepted[|r.accepted| - 1];
      assert i < |r.accepted| - 1 ==> End(r.accepted[i]) <= last.timing.ptsNs < End(last);
    }
  }

  lemma CalledIsOrdered(r: Run, c: Chunk)
    requires r.clock.epoch > 0 && Ordered(r)
    ensures Ordered(Called(r, c))
  {
    var (after, outcome) := Stamp(r.clock, c);
    match outcome {
      case Thrown => RefusedKeeps(r.clock, c, after, outcome);
      case Overflow => RefusedKeeps(r.clock, c, after, outcome);
      case Stamped(t) =>
        StampedFollows(r.clock, c, after, t);
        StampedIsOnAnchor(r.clock, c, after, t);
        AppendOrdered(r, Accepted(c, t, after.anchorIndex, after.anchorMono), after);
    }
  }

  // Over any run of calls the accepted intervals are nonempty, start at or after the
  // epoch, and never overlap or regress.
  lemma {:induction false} IntervalsNeverOverlap(epoch: int64, chunks: seq<Chunk>)
    requires epoch > 0
    ensures Ordered(Calls(epoch, chunks))
    decreases |chunks|
  {
    if chunks != [] {
      IntervalsNeverOverlap(epoch, chunks[..|chunks| - 1]);
      CalledIsOrdered(Calls(epoch, chunks[..|chunks| - 1]), chunks[|chunks| - 1]);
    }
  }

  // ---- contiguous chunks ----

  // Chunks of one rate, each starting at the index where the one before ends, without
  // a discontinuity after the first.
  ghost predicate Contiguous(chunks: seq<Chunk>) {
    forall i :: 0 < i < |chunks| ==>
      && chunks[i].rate == chunks[0].rate && !chunks[i].discontinuity
      && chunks[i].first == chunks[i - 1].first + chunks[i - 1].count
  }

  // Consecutive calls that are all accepted, with the clock before and after each.
  ghost predicate AllAccepted(clocks: seq<Clock>, chunks: seq<Chunk>, timings: seq<Timing>) {
    && |timings| == |chunks| && |clocks| == |chunks| + 1
    && (forall i :: 0 <= i < |clocks| ==> clocks[i].epoch > 0)
    && forall i :: 0 <= i < |chunks| ==> Stamp(clocks[i], chunks[i]) == (clocks[i + 1], Stamped(timings[i]))
  }

  function Total(timings: seq<Timing>): int {
    if timings == [] then 0 else Total(timings[..|timings| - 1]) + timings[|timings| - 1].durationNs
  }

  function Frames(chunks: seq<Chunk>): nat {
    if chunks == [] then 0 else Frames(chunks[..|chunks| - 1]) + chunks[|chunks| - 1].count
  }

  lemma StampedIsOnAnchor(k: Clock, c: Chunk, after: Clock, t: Timing)
    requires k.epoch > 0 && Stamp(k, c) == (after, Stamped(t))
    ensures OnAnchor(Accepted(c, t, after.anchorIndex, after.anchorMono), k.epoch)
    ensures after.anchorValid && after.epoch == k.epoch
    ensures k.anchorValid && !c.discontinuity ==>
              after.anchorIndex == k.anchorIndex && after.anchorMono == k.anchorMono
  {
  }

  // After the first chunk the anchor stays.
  lemma {:induction false} SameAnchor(clocks: seq<Clock>, chunks: seq<Chunk>, timings: seq<Timing>, i: nat)
    requires Contiguous(chunks) && AllAccepted(clocks, chunks, timings) && i < |chunks|
    ensures clocks[i + 1].anchorValid && clocks[i + 1].epoch == clocks[0].epoch
    ensures clocks[i + 1].anchorIndex == clocks[1].anchorIndex
    ensures clocks[i + 1].anchorMono == clocks[1].anchorMono
    ensures OnAnchor(Accepted(chunks[i], timings[i], clocks[1].anchorIndex, clocks[1].anchorMono), clocks[0].epoch)
  {
    StampedIsOnAnchor(clocks[i], chunks[i], clocks[i + 1], timings[i]);
    if i > 0 {
      SameAnchor(clocks, chunks, timings, i - 1);
    }
  }

  // Accepted contiguous chunks abut exactly.
  lemma ContiguousAbut(clocks: seq<Clock>, chunks: seq<Chunk>, timings: seq<Timing>, i: nat)
    requires Contiguous(chunks) && AllAccepted(clocks, chunks, timings) && 0 < i < |chunks|
    ensures timings[i].ptsNs == timings[i - 1].ptsNs + timings[i - 1].durationNs
  {
    SameAnchor(clocks, chunks, timings, i - 1);
    SameAnchor(clocks, chunks, timings, i);
  }

  // So their durations add up to the distance between the first start and the last end.
  lemma {:induction false} DurationsTelescope(clocks: seq<Clock>, chunks: seq<Chunk>, timings: seq<Timing>, n: nat)
    requires Contiguous(chunks) && AllAccepted(clocks, chunks, timings) && 0 < n <= |chunks|
    ensures timings[0].ptsNs + Total(timings[..n]) == timings[n - 1].ptsNs + timings[n - 1].durationNs
    ensures chunks[n - 1].first + chunks[n - 1].count == chunks[0].first + Frames(chunks[..n])
    decreases n
  {
    assert timings[..n][..n - 1] == timings[..n - 1] && chunks[..n][..n - 1] == chunks[..n - 1];
    if n > 1 {
      DurationsTelescope(clocks, chunks, timings, n - 1);
      ContiguousAbut(clocks, chunks, timings, n - 1);
    }
  }

  predicate Within(x: int, bound: int) {
    -bound < x < bound
  }

  lemma FloorsDiffer(a: nat, b: nat, rate: nat)
    requires rate > 0 && a <= b
    ensures Within((Ns(b, rate) - Ns(a, rate)) * rate - (b - a) * NS_PER_SECOND, rate)
  {
    Division(a * NS_PER_SECOND, rate);
    Division(b * NS_PER_SECOND, rate);
    assert (Ns(b, rate) - Ns(a, rate)) * rate == rate * Ns(b, rate) - rate * Ns(a, rate);
  }

  lemma TotalIsDifference(clocks: seq<Clock>, chunks: seq<Chunk>, timings: seq<Timing>) returns (a: nat, b: nat)
    requires chunks != [] && Contiguous(chunks) && AllAccepted(clocks, chunks, timings)
    ensures chunks[0].rate > 0 && b == a + Frames(chunks)
    ensures Total(timings) == Ns(b, chunks[0].rate) - Ns(a, chunks[0].rate)
  {
    var n := |chunks|;
    DurationsTelescope(clocks, chunks, timings, n);
    assert timings[..n] == timings && chunks[..n] == chunks;
    a := StartOnAnchor(clocks, chunks, timings, 0);
    b := EndOnAnchor(clocks, chunks, timings, n - 1);
  }

  lemma StartOnAnchor(clocks: seq<Clock>, chunks: seq<Chunk>, timings: seq<Timing>, i: nat) returns (a: nat)
    requires Contiguous(chunks) && AllAccepted(clocks, chunks, timings) && i < |chunks|
    ensures chunks[0].rate > 0 && a == chunks[i].first - clocks[1].anchorIndex
    ensures timings[i].ptsNs == clocks[1].anchorMono - clocks[0].epoch + Ns(a, chunks[0].rate)
  {
    SameAnchor(clocks, chunks, timings, i);
    a := chunks[i].first - clocks[1].anchorIndex;
  }

  lemma EndOnAnchor(clocks: seq<Clock>, chunks: seq<Chunk>, timings: seq<Timing>, i: nat) returns (b: nat)
    requires Contiguous(chunks) && AllAccepted(clocks, chunks, timings) && i < |chunks|
    ensures chunks[0].rate > 0 && b == chunks[i].first + chunks[i].count - clocks[1].anchorIndex
    ensures timings[i].ptsNs + timings[i].durationNs
         == clocks[1].anchorMono - clocks[0].epoch + Ns(b, chunks[0].rate)
  {
    SameAnchor(clocks, chunks, timings, i);
    b := chunks[i].first + chunks[i].count - clocks[1].anchorIndex;
  }

  // However many chunks there are, the sum of their durations is less than one
  // nanosecond away from the exact time of their samples.
  lemma DurationsNeverDrift(clocks: seq<Clock>, chunks: seq<Chunk>, timings: seq<Timing>)
    requires chunks != [] && Contiguous(chunks) && AllAccepted(clocks, chunks, timings)
    ensures Within(Total(timings) * chunks[0].rate - Frames(chunks) * NS_PER_SECOND, chunks[0].rate)
  {
    var a, b := TotalIsDifference(clocks, chunks, timings);
    FloorsDiffer(a, b, chunks[0].rate);
  }
}
