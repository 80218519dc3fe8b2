/**
 The AAC front end's re-slicing of timed PCM chunks into codec frames. What the
 codec answers to each call is a parameter.
 */
module PcmRechunk {
  import opened Arithmetic
  import opened Octets
  import opened MediaClocks

  // One sample for every channel.
  type PcmFrame = seq<bv16>

  datatype Timed = Timed(raw: Chunk, ptsNs: int, durationNs: int)

  predicate ValidTimed(t: Timed) {
    ValidChunk(t.raw) && t.durationNs > 0
  }

  // Signed 16-bit little-endian, kept as its bits.
  function Sample(low: byte, high: byte): bv16 {
    (low as bv16) | ((high as bv16) << 8)
  }

  lemma SampleFits(c: Chunk, k: nat, channel: nat)
    requires ValidChunk(c) && k < c.count && channel < c.channels
    ensures 0 <= k * (c.channels * 2) + channel * 2 < |c.pcm| - 1
  {
    MulOrder(c.channels * 2, k + 1, c.count);
    assert (c.channels * 2) * (k + 1) == k * (c.channels * 2) + c.channels * 2;
    assert (c.channels * 2) * c.count == |c.pcm|;
    MulOrder(c.channels * 2, 0, k);
    assert (c.channels * 2) * k == k * (c.channels * 2);
  }

  function SampleAt(c: Chunk, k: nat, channel: nat): bv16
    requires ValidChunk(c) && k < c.count && channel < c.channels
  {
    SampleFits(c, k, channel);
    var offset := k * (c.channels * 2) + channel * 2;
    Sample(c.pcm[offset], c.pcm[offset + 1])
  }

  function FrameAt(c: Chunk, k: nat): (frame: PcmFrame)
    requires ValidChunk(c) && k < c.count
    ensures |frame| == c.channels
  {
    seq(c.channels, channel requires 0 <= channel < c.channels => SampleAt(c, k, channel))
  }

  // The sample frames that the bytes of a chunk hold.
  function FramesOf(c: Chunk): (frames: seq<PcmFrame>)
    requires ValidChunk(c)
    ensures |frames| == c.count
  {
    seq(c.count, k requires 0 <= k < c.count => FrameAt(c, k))
  }

  // ---- the buffered chunks ----

  // An accepted chunk with its sample frames.
  datatype Piece = Piece(chunk: Timed, frames: seq<PcmFrame>)

  datatype Pending = Pending(piece: Piece, consumed: nat)

  predicate Live(p: Pending) {
    |p.piece.frames| == p.piece.chunk.raw.count && p.consumed < |p.piece.frames|
  }

  predicate AllLive(pending: seq<Pending>) {
    forall i :: 0 <= i < |pending| ==> Live(pending[i])
  }

  function Available(p: Pending): (n: nat)
    requires Live(p)
    ensures n > 0
  {
    |p.piece.frames| - p.consumed
  }

  function Min(a: nat, b: nat): nat {
    if a < b then a else b
  }

  function Buffered(pending: seq<Pending>): seq<PcmFrame>
    requires AllLive(pending)
  {
    if pending == [] then []
    else pending[0].piece.frames[pending[0].consumed..] + Buffered(pending[1..])
  }

  // The chunks after `frames` frames were taken from the front.
  function Consumed(pending: seq<Pending>, frames: nat): (rest: seq<Pending>)
    requires AllLive(pending) && frames <= |Buffered(pending)|
    decreases |pending|
  {
    if frames == 0 then pending
    else if frames < Available(pending[0]) then
      [pending[0].(consumed := pending[0].consumed + frames)] + pending[1..]
    else Consumed(pending[1..], frames - Available(pending[0]))
  }

  function Position(p: Pending): nat {
    p.piece.chunk.raw.first + p.consumed
  }

  function EndOfChunk(p: Pending): nat {
    p.piece.chunk.raw.first + p.piece.chunk.raw.count
  }

  // Buffered chunks follow each other; a discontinuity can only come first.
  ghost predicate Chained(pending: seq<Pending>) {
    forall i, j :: 0 <= i && i + 1 == j < |pending| ==> Follows(pending[i], pending[j])
  }

  predicate Follows(a: Pending, b: Pending) {
    && b.consumed == 0 && !b.piece.chunk.raw.discontinuity
    && b.piece.chunk.raw.first == EndOfChunk(a)
  }

  lemma ChainedRest(pending: seq<Pending>)
    requires pending != [] && Chained(pending)
    ensures Chained(pending[1..])
  {
    var rest := pending[1..];
    forall i, j | 0 <= i && i + 1 == j < |rest| ensures Follows(rest[i], rest[j]) {
      assert Follows(pending[i + 1], pending[j + 1]);
    }
  }

  // What is left is a suffix of the chunks, with its first one partly consumed.
  ghost predicate Suffix(rest: seq<Pending>, pending: seq<Pending>, popped: nat) {
    && popped + |rest| == |pending|
    && forall i {:trigger rest[i]} :: 0 <= i < |rest| ==>
         rest[i].piece == pending[popped + i].piece && (i > 0 ==> rest[i] == pending[popped + i])
  }

  lemma {:induction false} ConsumedIsSuffix(pending: seq<Pending>, frames: nat) returns (popped: nat)
    requires AllLive(pending) && frames <= |Buffered(pending)|
    ensures Suffix(Consumed(pending, frames), pending, popped)
    decreases |pending|
  {
    if frames == 0 || frames < Available(pending[0]) {
      popped := 0;
    } else {
      var n := ConsumedIsSuffix(pending[1..], frames - Available(pending[0]));
      popped := n + 1;
    }
  }

  lemma SplitFront(front: seq<PcmFrame>, back: seq<PcmFrame>, n: nat)
    requires n <= |front| + |back|
    ensures (front + back)[n..] == if n < |front| then front[n..] + back else back[n - |front|..]
  {
  }

  lemma PartlyDropped(pending: seq<Pending>, frames: nat)
    requires pending != [] && AllLive(pending) && 0 < frames < Available(pending[0])
    ensures AllLive(Consumed(pending, frames))
    ensures Buffered(Consumed(pending, frames)) == pending[0].piece.frames[pending[0].consumed..][frames..]
                                                   + Buffered(pending[1..])
  {
    var rest := Consumed(pending, frames);
    assert rest[1..] == pending[1..];
    assert rest[0].piece.frames[rest[0].consumed..] == pending[0].piece.frames[pending[0].consumed..][frames..];
  }

  lemma {:induction false} ConsumedDrops(pending: seq<Pending>, frames: nat)
    requires AllLive(pending) && frames <= |Buffered(pending)|
    ensures AllLive(Consumed(pending, frames))
    ensures Buffered(Consumed(pending, frames)) == Buffered(pending)[frames..]
    decreases |pending|
  {
    if frames != 0 {
      SplitFront(pending[0].piece.frames[pending[0].consumed..], Buffered(pending[1..]), frames);
      if frames < Available(pending[0]) {
        PartlyDropped(pending, frames);
      } else {
        ConsumedDrops(pending[1..], frames - Available(pending[0]));
      }
    }
  }

  // Where the buffer starts and ends after frames were taken from it.
  ghost predicate Continues(rest: seq<Pending>, pending: seq<Pending>, frames: nat)
    requires pending != []
  {
    && Chained(rest)
    && (if rest == [] then EndOfChunk(pending[|pending| - 1]) == Position(pending[0]) + frames
        else && EndOfChunk(rest[|rest| - 1]) == EndOfChunk(pending[|pending| - 1])
             && Position(rest[0]) == Position(pending[0]) + frames)
  }

  lemma PartlyTaken(pending: seq<Pending>, frames: nat)
    requires pending != [] && Chained(pending)
    ensures var first := pending[0].(consumed := pending[0].consumed + frames);
            Continues([first] + pending[1..], pending, frames)
  {
    var rest := [pending[0].(consumed := pending[0].consumed + frames)] + pending[1..];
    forall i, j | 0 <= i && i + 1 == j < |rest| ensures Follows(rest[i], rest[j]) {
      assert Follows(pending[i], pending[j]);
    }
  }

  lemma FirstTaken(pending: seq<Pending>, rest: seq<Pending>, frames: nat)
    requires |pending| > 1 && Chained(pending) && Live(pending[0]) && frames >= Available(pending[0])
    requires Continues(rest, pending[1..], frames - Available(pending[0]))
    ensures Continues(rest, pending, frames)
  {
    assert Follows(pending[0], pending[1]);
    assert pending[1..][|pending| - 2] == pending[|pending| - 1];
  }

  lemma ConsumedRest(pending: seq<Pending>, frames: nat)
    requires AllLive(pending) && |pending| > 1 && Chained(pending)
    requires Available(pending[0]) <= frames <= |Buffered(pending)|
    ensures AllLive(pending[1..]) && Chained(pending[1..]) && pending[1..] != []
    ensures frames - Available(pending[0]) <= |Buffered(pending[1..])|
    ensures Consumed(pending, frames) == Consumed(pending[1..], frames - Available(pending[0]))
  {
    ChainedRest(pending);
  }

  lemma WholeTaken(pending: seq<Pending>, frames: nat)
    requires |pending| == 1 && AllLive(pending) && Available(pending[0]) <= frames <= |Buffered(pending)|
    ensures Continues(Consumed(pending, frames), pending, frames)
  {
    assert pending[1..] == [];
  }

  lemma {:induction false} ConsumedChains(pending: seq<Pending>, frames: nat)
    requires AllLive(pending) && frames <= |Buffered(pending)| && Chained(pending) && pending != []
    ensures Continues(Consumed(pending, frames), pending, frames)
    decreases |pending|
  {
    if frames == 0 {
    } else if frames < Available(pending[0]) {
      PartlyTaken(pending, frames);
    } else if |pending| == 1 {
      WholeTaken(pending, frames);
    } else {
      ConsumedRest(pending, frames);
      ConsumedChains(pending[1..], frames - Available(pending[0]));
      FirstTaken(pending, Consumed(pending, frames), frames);
    }
  }

  lemma {:induction false} BufferedSnoc(pending: seq<Pending>, p: Pending)
    requires AllLive(pending) && Live(p)
    ensures AllLive(pending + [p])
    ensures Buffered(pending + [p]) == Buffered(pending) + p.piece.frames[p.consumed..]
    decreases |pending|
  {
    if pending == [] {
      assert pending + [p] == [p] && [p][1..] == [];
    } else {
      assert (pending + [p])[1..] == pending[1..] + [p];
      BufferedSnoc(pending[1..], p);
    }
  }

  // ---- the encoder ----

  datatype Interval = Interval(first: nat, count: nat, ptsNs: int, discontinuity: bool)

  // One codec frame: where its samples come from, the samples, the silence after them.
  datatype Submitted = Submitted(interval: Interval, samples: seq<PcmFrame>, padding: nat, origin: Piece)

  // `submitted` and `inputs` are history.
  datatype Encoder = Encoder(
    rate: uint32, channels: uint16, frameSize: nat, smallLast: bool,
    codecOpen: bool, drained: bool, pending: seq<Pending>, pendingFrames: nat,
    haveInput: bool, expected: nat, submitted: seq<Submitted>, inputs: seq<Piece>)

  datatype Answer = Taken | SendFails | ReceiveFails
  datatype Reset = Reopened | DrainFails | ReopenFails

  function IntervalOf(p: Pending, source: nat, rate: nat): Interval
    requires rate > 0
  {
    Interval(Position(p), source, p.piece.chunk.ptsNs + Ns(p.consumed, rate),
             p.consumed == 0 && p.piece.chunk.raw.discontinuity)
  }

  predicate Buildable(e: Encoder, source: nat, codec: nat) {
    e.codecOpen && source != 0 && source <= codec && source <= e.pendingFrames && e.pending != []
  }

  // The buffer is what its counter says.
  predicate Coherent(e: Encoder) {
    e.frameSize > 0 && e.rate > 0 && AllLive(e.pending) && e.pendingFrames == |Buffered(e.pending)|
  }

  function Built(e: Encoder, source: nat, codec: nat): Submitted
    requires Coherent(e) && Buildable(e, source, codec)
  {
    Submitted(IntervalOf(e.pending[0], source, e.rate), Buffered(e.pending)[..source], codec - source,
              e.pending[0].piece)
  }

  function Submit(e: Encoder, source: nat, codec: nat, answer: Answer): (r: (Encoder, bool))
    requires Coherent(e)
  {
    if !Buildable(e, source, codec) || answer == SendFails then (e, false)
    else
      (e.(submitted := e.submitted + [Built(e, source, codec)],
          pending := Consumed(e.pending, source), pendingFrames := e.pendingFrames - source),
       answer == Taken)
  }

  lemma SubmitCoherent(e: Encoder, source: nat, codec: nat, answer: Answer)
    requires Coherent(e)
    ensures Coherent(Submit(e, source, codec, answer).0)
  {
    if Buildable(e, source, codec) {
      ConsumedDrops(e.pending, source);
    }
  }

  // The loop of Encode; `answers` tells what the codec says to each submission.
  function SubmitAll(e: Encoder, answers: nat -> Answer): (r: (Encoder, bool))
    requires Coherent(e)
    ensures Coherent(r.0)
    decreases e.pendingFrames
  {
    if e.pendingFrames < e.frameSize then (e, true)
    else
      var (next, ok) := Submit(e, e.frameSize, e.frameSize, answers(|e.submitted|));
      SubmitCoherent(e, e.frameSize, e.frameSize, answers(|e.submitted|));
      if ok then SubmitAll(next, answers) else (next, false)
  }

  predicate Acceptable(e: Encoder, t: Timed) {
    ValidTimed(t) && t.raw.rate == e.rate && t.raw.channels == e.channels
  }

  function Pushed(e: Encoder, piece: Piece): Encoder {
    var c := piece.chunk.raw;
    e.(pending := e.pending + [Pending(piece, 0)], pendingFrames := e.pendingFrames + c.count,
       haveInput := true, expected := c.first + c.count, inputs := e.inputs + [piece])
  }

  lemma PushedCoherent(e: Encoder, piece: Piece)
    requires Coherent(e) && |piece.frames| == piece.chunk.raw.count > 0
    ensures Coherent(Pushed(e, piece))
    ensures Buffered(Pushed(e, piece).pending) == Buffered(e.pending) + piece.frames
  {
    BufferedSnoc(e.pending, Pending(piece, 0));
    assert piece.frames[0..] == piece.frames;
  }

  // The checks of Encode that come before the chunk is taken.
  predicate Refused(e: Encoder, t: Timed, reset: Reset) {
    || e.drained || !Acceptable(e, t)
    || (e.haveInput && !t.raw.discontinuity && t.raw.first != e.expected)
    || (e.haveInput && t.raw.discontinuity && (e.pendingFrames != 0 || reset != Reopened))
  }

  function Encoded(e: Encoder, t: Timed, reset: Reset, answers: nat -> Answer): (r: (Encoder, bool))
    requires Coherent(e)
    ensures Coherent(r.0)
  {
    if Refused(e, t, reset) then
      var reached := !e.drained && Acceptable(e, t) && e.haveInput && t.raw.discontinuity && e.pendingFrames == 0;
      (if reached && reset == ReopenFails then e.(codecOpen := false) else e, false)
    else
      var piece := Piece(t, FramesOf(t.raw));
      PushedCoherent(e, piece);
      SubmitAll(Pushed(e, piece), answers)
  }

  function Flushed(e: Encoder, answer: Answer, drains: bool): (r: (Encoder, bool))
    requires Coherent(e)
    ensures Coherent(r.0)
  {
    if e.drained then (e, true)
    else
      var codec := if e.smallLast then e.pendingFrames else e.frameSize;
      var (next, ok) := if e.pendingFrames == 0 then (e, true) else Submit(e, e.pendingFrames, codec, answer);
      SubmitCoherent(e, e.pendingFrames, codec, answer);
      if !ok || !drains then (next, false) else (next.(drained := true), true)
  }

  // ---- what every call keeps ----

  function SamplesOf(submitted: seq<Submitted>): seq<PcmFrame> {
    if submitted == [] then [] else SamplesOf(submitted[..|submitted| - 1]) + submitted[|submitted| - 1].samples
  }

  function InputFrames(inputs: seq<Piece>): seq<PcmFrame> {
    if inputs == [] then [] else InputFrames(inputs[..|inputs| - 1]) + inputs[|inputs| - 1].frames
  }

  // Submitted samples followed by the buffered ones are the input samples, in order.
  predicate Lossless(e: Encoder)
    requires AllLive(e.pending)
  {
    SamplesOf(e.submitted) + Buffered(e.pending) == InputFrames(e.inputs)
  }

  function NextIndex(e: Encoder): nat {
    if e.pending == [] then e.expected else Position(e.pending[0])
  }

  predicate AtDiscontinuity(e: Encoder) {
    e.pending != [] && e.pending[0].consumed == 0 && e.pending[0].piece.chunk.raw.discontinuity
  }

  function EndOf(s: Submitted): nat {
    s.interval.first + s.interval.count
  }

  // The buffer ends where the next chunk is expected, and the last submitted interval
  // ends where the buffer starts, unless a discontinuity is due.
  ghost predicate Aligned(e: Encoder) {
    && Chained(e.pending)
    && (e.pending != [] ==> e.haveInput && EndOfChunk(e.pending[|e.pending| - 1]) == e.expected)
    && (e.submitted != [] ==>
          e.haveInput && (EndOf(e.submitted[|e.submitted| - 1]) == NextIndex(e) || AtDiscontinuity(e)))
  }

  // The submitted intervals abut unless a discontinuity is flagged, and each is as
  // long as its samples.
  ghost predicate Tiled(submitted: seq<Submitted>) {
    && (forall i :: 0 <= i < |submitted| ==> submitted[i].interval.count == |submitted[i].samples| > 0)
    && (forall i, j :: 0 <= i && i + 1 == j < |submitted| ==> Abuts(submitted[i], submitted[j]))
  }

  predicate Abuts(a: Submitted, b: Submitted) {
    b.interval.discontinuity || b.interval.first == EndOf(a)
  }

  // An interval starts inside the chunk it comes from and has that chunk's time.
  predicate FromOrigin(s: Submitted, rate: nat)
    requires rate > 0
  {
    var c := s.origin.chunk.raw;
    && c.first <= s.interval.first < c.first + c.count
    && s.interval.ptsNs == s.origin.chunk.ptsNs + Ns(s.interval.first - c.first, rate)
    && s.interval.discontinuity == (s.interval.first == c.first && c.discontinuity)
  }

  predicate Sourced(e: Encoder)
    requires e.rate > 0
  {
    && (forall i :: 0 <= i < |e.pending| ==> e.pending[i].piece in e.inputs)
    && (forall i :: 0 <= i < |e.submitted| ==>
          e.submitted[i].origin in e.inputs && FromOrigin(e.submitted[i], e.rate))
  }

  predicate Sized(s: Submitted, e: Encoder) {
    s.interval.count + s.padding == e.frameSize || (e.smallLast && s.padding == 0)
  }

  ghost predicate Inv(e: Encoder) {
    && Coherent(e) && Lossless(e) && Aligned(e) && Tiled(e.submitted) && Sourced(e)
    && (forall i :: 0 <= i < |e.submitted| ==> Sized(e.submitted[i], e))
    && (e.drained ==> e.pendingFrames == 0)
  }

  // The inputs are the decoded bytes of valid chunks of the configured format.
  predicate Genuine(e: Encoder) {
    forall i :: 0 <= i < |e.inputs| ==>
      Acceptable(e, e.inputs[i].chunk) && e.inputs[i].frames == FramesOf(e.inputs[i].chunk.raw)
  }

  function NewEncoder(rate: uint32, channels: uint16, frameSize: nat, smallLast: bool): Encoder {
    Encoder(rate, channels, frameSize, smallLast, true, false, [], 0, false, 0, [], [])
  }

  lemma FreshInv(rate: uint32, channels: uint16, frameSize: nat, smallLast: bool)
    requires rate > 0 && frameSize > 0
    ensures Inv(NewEncoder(rate, channels, frameSize, smallLast))
  {
  }

  lemma SamplesSnoc(submitted: seq<Submitted>, s: Submitted)
    ensures SamplesOf(submitted + [s]) == SamplesOf(submitted) + s.samples
  {
    assert (submitted + [s])[..|submitted|] == submitted;
  }

  lemma InputSnoc(inputs: seq<Piece>, piece: Piece)
    ensures InputFrames(inputs + [piece]) == InputFrames(inputs) + piece.frames
  {
    assert (inputs + [piece])[..|inputs|] == inputs;
  }

  lemma Regroup(done: seq<PcmFrame>, buffered: seq<PcmFrame>, n: nat)
    requires n <= |buffered|
    ensures (done + buffered[..n]) + buffered[n..] == done + buffered
  {
    assert buffered == buffered[..n] + buffered[n..];
  }

  lemma SubmitLossless(e: Encoder, source: nat, codec: nat)
    requires Coherent(e) && Lossless(e) && Buildable(e, source, codec)
    ensures Coherent(Submit(e, source, codec, Taken).0)
    ensures Lossless(Submit(e, source, codec, Taken).0)
  {
    SubmitCoherent(e, source, codec, Taken);
    SamplesSnoc(e.submitted, Built(e, source, codec));
    ConsumedDrops(e.pending, source);
    Regroup(SamplesOf(e.submitted), Buffered(e.pending), source);
  }

  lemma SubmitAligned(e: Encoder, source: nat, codec: nat)
    requires Coherent(e) && Aligned(e) && Buildable(e, source, codec)
    ensures Aligned(Submit(e, source, codec, Taken).0)
  {
    ConsumedChains(e.pending, source);
    var next := Submit(e, source, codec, Taken).0;
    assert next.submitted[|next.submitted| - 1] == Built(e, source, codec);
  }

  lemma SubmitTiled(e: Encoder, source: nat, codec: nat)
    requires Coherent(e) && Aligned(e) && Tiled(e.submitted) && Buildable(e, source, codec)
    ensures Tiled(e.submitted + [Built(e, source, codec)])
  {
    var built := Built(e, source, codec);
    assert built.interval.discontinuity == AtDiscontinuity(e) && built.interval.first == NextIndex(e);
    var all := e.submitted + [built];
    forall i, j | 0 <= i && i + 1 == j < |all| ensures Abuts(all[i], all[j]) {
      if j < |e.submitted| {
        assert Abuts(e.submitted[i], e.submitted[j]);
      }
    }
  }

  lemma SubmitSourced(e: Encoder, source: nat, codec: nat)
    requires Coherent(e) && Sourced(e) && Buildable(e, source, codec)
    ensures Sourced(Submit(e, source, codec, Taken).0)
  {
    var popped := ConsumedIsSuffix(e.pending, source);
    var next := Submit(e, source, codec, Taken).0;
    forall i | 0 <= i < |next.pending| ensures next.pending[i].piece in e.inputs {
      assert next.pending[i].piece == e.pending[popped + i].piece;
    }
    assert Live(e.pending[0]) && e.pending[0].piece in e.inputs;
    assert FromOrigin(Built(e, source, codec), e.rate);
  }

  lemma SubmitKeeps(e: Encoder, source: nat, codec: nat, answer: Answer)
    requires Inv(e) && !e.drained
    requires codec == e.frameSize || (e.smallLast && codec == source)
    ensures Inv(Submit(e, source, codec, answer).0)
  {
    if Buildable(e, source, codec) && answer != SendFails {
      SubmitCoherent(e, source, codec, Taken);
      SubmitLossless(e, source, codec);
      SubmitAligned(e, source, codec);
      SubmitTiled(e, source, codec);
      SubmitSourced(e, source, codec);
    }
  }

  // The loop keeps the invariant and ends with less than one codec frame when every
  // submission succeeds.
  lemma {:induction false} SubmitAllKeeps(e: Encoder, answers: nat -> Answer)
    requires Inv(e) && !e.drained
    ensures Inv(SubmitAll(e, answers).0) && !SubmitAll(e, answers).0.drained
    ensures SubmitAll(e, answers).1 ==> SubmitAll(e, answers).0.pendingFrames < e.frameSize
    decreases e.pendingFrames
  {
    if e.pendingFrames >= e.frameSize {
      var answer := answers(|e.submitted|);
      var (next, ok) := Submit(e, e.frameSize, e.frameSize, answer);
      SubmitKeeps(e, e.frameSize, e.frameSize, answer);
      if ok {
        SubmitShrinks(e, answer);
        SubmitAllKeeps(next, answers);
      }
    }
  }

  lemma SubmitShrinks(e: Encoder, answer: Answer)
    requires Coherent(e)
    ensures var (next, ok) := Submit(e, e.frameSize, e.frameSize, answer);
      && SameInput(next, e) && next.drained == e.drained
      && (ok ==> next.pendingFrames < e.pendingFrames)
      && OnlyFullFrames(e.submitted, next.submitted, e.frameSize)
  {
  }

  // The loop submits only full frames, and takes no input.
  lemma {:induction false} SubmitAllFull(e: Encoder, answers: nat -> Answer)
    requires Coherent(e)
    ensures SameInput(SubmitAll(e, answers).0, e)
    ensures OnlyFullFrames(e.submitted, SubmitAll(e, answers).0.submitted, e.frameSize)
    decreases e.pendingFrames
  {
    if e.pendingFrames >= e.frameSize {
      var answer := answers(|e.submitted|);
      var (next, ok) := Submit(e, e.frameSize, e.frameSize, answer);
      SubmitCoherent(e, e.frameSize, e.frameSize, answer);
      SubmitShrinks(e, answer);
      if ok {
        SubmitAllFull(next, answers);
      }
    }
  }

  predicate SameInput(a: Encoder, b: Encoder) {
    a.inputs == b.inputs && a.rate == b.rate && a.channels == b.channels && a.frameSize == b.frameSize
  }

  predicate OnlyFullFrames(before: seq<Submitted>, after: seq<Submitted>, frameSize: nat) {
    before <= after
    && forall i :: |before| <= i < |after| ==> after[i].interval.count == frameSize && after[i].padding == 0
  }

  lemma PushLossless(e: Encoder, piece: Piece)
    requires Coherent(e) && Lossless(e) && |piece.frames| == piece.chunk.raw.count > 0
    ensures Coherent(Pushed(e, piece)) && Lossless(Pushed(e, piece))
  {
    PushedCoherent(e, piece);
    InputSnoc(e.inputs, piece);
    assert (SamplesOf(e.submitted) + Buffered(e.pending)) + piece.frames
        == SamplesOf(e.submitted) + (Buffered(e.pending) + piece.frames);
  }

  // A chunk may be taken when it continues the buffer, or starts a discontinuity after
  // the buffer has been emptied, or is the first one.
  predicate Fits(e: Encoder, c: Chunk) {
    e.haveInput ==> if c.discontinuity then e.pendingFrames == 0 else c.first == e.expected
  }

  lemma PushAligned(e: Encoder, piece: Piece)
    requires Coherent(e) && Aligned(e) && Fits(e, piece.chunk.raw)
    ensures Aligned(Pushed(e, piece))
  {
    if e.pending != [] {
      assert |Buffered(e.pending)| >= Available(e.pending[0]);
    }
    var next := Pushed(e, piece);
    forall i, j | 0 <= i && i + 1 == j < |next.pending| ensures Follows(next.pending[i], next.pending[j]) {
      if j < |e.pending| {
        assert Follows(e.pending[i], e.pending[j]);
      }
    }
  }

  lemma PushKeeps(e: Encoder, piece: Piece)
    requires Inv(e) && !e.drained && Fits(e, piece.chunk.raw)
    requires |piece.frames| == piece.chunk.raw.count > 0
    ensures Inv(Pushed(e, piece))
  {
    PushLossless(e, piece);
    PushAligned(e, piece);
  }

  // A call of Encode: nothing is lost or reordered, the intervals still tile, only full
  // frames are submitted, and a successful call leaves less than one of them behind.
  lemma EncodeKeeps(e: Encoder, t: Timed, reset: Reset, answers: nat -> Answer)
    requires Inv(e)
    ensures var (after, ok) := Encoded(e, t, reset, answers);
      && Inv(after)
      && (ok ==> after.pendingFrames < after.frameSize)
      && after.inputs == (if Refused(e, t, reset) then e.inputs else e.inputs + [Piece(t, FramesOf(t.raw))])
      && OnlyFullFrames(e.submitted, after.submitted, e.frameSize)
  {
    if !Refused(e, t, reset) {
      var piece := Piece(t, FramesOf(t.raw));
      PushKeeps(e, piece);
      SubmitAllKeeps(Pushed(e, piece), answers);
      SubmitAllFull(Pushed(e, piece), answers);
    }
  }

  lemma DrainKeeps(e: Encoder)
    requires Inv(e) && e.pendingFrames == 0
    ensures Inv(e.(drained := true))
  {
  }

  lemma FlushKeeps(e: Encoder, answer: Answer, drains: bool)
    requires Inv(e)
    ensures Inv(Flushed(e, answer, drains).0)
    ensures Flushed(e, answer, drains).1 ==> Flushed(e, answer, drains).0.drained
    ensures SameInput(Flushed(e, answer, drains).0, e)
  {
    if !e.drained {
      var codec := if e.smallLast then e.pendingFrames else e.frameSize;
      SubmitKeeps(e, e.pendingFrames, codec, answer);
      var (next, ok) := if e.pendingFrames == 0 then (e, true) else Submit(e, e.pendingFrames, codec, answer);
      if ok {
        DrainKeeps(next);
      }
    }
  }

  // ---- whole runs ----

  datatype Call = EncodeCall(chunk: Timed, reset: Reset, answers: nat -> Answer)
                | FlushCall(answer: Answer, drains: bool)

  ghost function Called(e: Encoder, call: Call): (after: Encoder)
    requires Coherent(e)
    ensures Coherent(after)
  {
    match call
    case EncodeCall(chunk, reset, answers) => Encoded(e, chunk, reset, answers).0
    case FlushCall(answer, drains) => Flushed(e, answer, drains).0
  }

  ghost function Calls(e: Encoder, calls: seq<Call>): (after: Encoder)
    requires Coherent(e)
    ensures Coherent(after)
  {
    if calls == [] then e else Called(Calls(e, calls[..|calls| - 1]), calls[|calls| - 1])
  }

  lemma CalledKeeps(e: Encoder, call: Call)
    requires Inv(e)
    ensures Inv(Called(e, call))
  {
    match call {
      case EncodeCall(chunk, reset, answers) => EncodeKeeps(e, chunk, reset, answers);
      case FlushCall(answer, drains) => FlushKeeps(e, answer, drains);
    }
  }

  lemma CalledGenuine(e: Encoder, call: Call)
    requires Coherent(e) && Genuine(e)
    ensures Genuine(Called(e, call))
  {
    match call {
      case EncodeCall(t, reset, answers) =>
        if !Refused(e, t, reset) {
          PushedCoherent(e, Piece(t, FramesOf(t.raw)));
          SubmitAllFull(Pushed(e, Piece(t, FramesOf(t.raw))), answers);
        }
      case FlushCall(answer, drains) =>
    }
  }

  // Over any run, whatever the codec answers.
  lemma {:induction false} RunKeeps(e: Encoder, calls: seq<Call>)
    requires Inv(e) && Genuine(e)
    ensures Inv(Calls(e, calls)) && Genuine(Calls(e, calls))
    decreases |calls|
  {
    if calls != [] {
      RunKeeps(e, calls[..|calls| - 1]);
      CalledKeeps(Calls(e, calls[..|calls| - 1]), calls[|calls| - 1]);
      CalledGenuine(Calls(e, calls[..|calls| - 1]), calls[|calls| - 1]);
    }
  }

  // From a fresh encoder: the submitted samples followed by the buffered ones are the
  // decoded bytes of the accepted chunks, in order; once drained nothing is buffered.
  lemma RechunkingIsLossless(rate: uint32, channels: uint16, frameSize: nat, smallLast: bool, calls: seq<Call>)
    requires rate > 0 && frameSize > 0
    ensures var e := Calls(NewEncoder(rate, channels, frameSize, smallLast), calls);
      && Genuine(e) && Tiled(e.submitted)
      && SamplesOf(e.submitted) + Buffered(e.pending) == InputFrames(e.inputs)
      && (e.drained ==> SamplesOf(e.submitted) == InputFrames(e.inputs))
  {
    FreshInv(rate, channels, frameSize, smallLast);
    RunKeeps(NewEncoder(rate, channels, frameSize, smallLast), calls);
    var e := Calls(NewEncoder(rate, channels, frameSize, smallLast), calls);
    assert e.drained ==> Buffered(e.pending) == [];
    assert SamplesOf(e.submitted) + [] == SamplesOf(e.submitted);
  }

  // ---- source times ----

  // The time of a sample on the sample clock of an anchor, times the rate, is at
  // least the given time and less than two nanoseconds above it.
  predicate NearIdeal(ptsNs: int, index: int, rate: int, anchorIndex: int, anchorPts: int) {
    0 <= (index - anchorIndex) * NS_PER_SECOND - (ptsNs - anchorPts) * rate < 2 * rate
  }

  lemma TwoFloors(a: nat, b: nat, rate: nat)
    requires rate > 0
    ensures 0 <= (a + b) * NS_PER_SECOND - (Ns(a, rate) + Ns(b, rate)) * rate < 2 * rate
  {
    Division(a * NS_PER_SECOND, rate);
    Division(b * NS_PER_SECOND, rate);
    assert (Ns(a, rate) + Ns(b, rate)) * rate == rate * Ns(a, rate) + rate * Ns(b, rate);
  }

  predicate StampedBy(piece: Piece, a: Accepted) {
    piece.chunk.raw == a.chunk && piece.chunk.ptsNs == a.timing.ptsNs
  }

  lemma OriginNearIdeal(s: Submitted, a: Accepted, epoch: int64)
    requires a.chunk.rate > 0 && FromOrigin(s, a.chunk.rate) && OnAnchor(a, epoch) && StampedBy(s.origin, a)
    ensures NearIdeal(s.interval.ptsNs, s.interval.first, a.chunk.rate, a.anchorIndex, a.anchorMono - epoch)
  {
    var before, offset := a.chunk.first - a.anchorIndex, s.interval.first - a.chunk.first;
    TwoFloors(before, offset, a.chunk.rate);
    assert s.interval.ptsNs - (a.anchorMono - epoch) == Ns(before, a.chunk.rate) + Ns(offset, a.chunk.rate);
  }

  lemma OriginOf(e: Encoder, i: nat) returns (k: nat)
    requires Inv(e) && Genuine(e) && i < |e.submitted|
    ensures k < |e.inputs| && e.inputs[k] == e.submitted[i].origin
    ensures e.inputs[k].chunk.raw.rate == e.rate > 0 && FromOrigin(e.submitted[i], e.rate)
  {
    assert e.submitted[i].origin in e.inputs;
    k :| 0 <= k < |e.inputs| && e.inputs[k] == e.submitted[i].origin;
    assert Acceptable(e, e.inputs[k].chunk);
  }

  // The media clock stamped this piece in that run.
  ghost predicate StampedIn(piece: Piece, r: Run) {
    exists a :: a in r.accepted && StampedBy(piece, a)
  }

  lemma StampOf(piece: Piece, r: Run) returns (a: Accepted)
    requires Ordered(r) && StampedIn(piece, r)
    ensures a in r.accepted && StampedBy(piece, a) && OnAnchor(a, r.clock.epoch)
  {
    a :| a in r.accepted && StampedBy(piece, a);
    var n :| 0 <= n < |r.accepted| && r.accepted[n] == a;
  }

  // However long the run: when the media clock stamped the inputs, the source time of
  // every submitted frame is within two nanoseconds of its ideal sample time.
  lemma SourcePtsNearIdeal(e: Encoder, r: Run, i: nat) returns (a: Accepted)
    requires Inv(e) && Genuine(e) && Ordered(r) && i < |e.submitted|
    requires forall k :: 0 <= k < |e.inputs| ==> StampedIn(e.inputs[k], r)
    ensures a in r.accepted && StampedBy(e.submitted[i].origin, a)
    ensures NearIdeal(e.submitted[i].interval.ptsNs, e.submitted[i].interval.first,
                      e.rate, a.anchorIndex, a.anchorMono - r.clock.epoch)
  {
    var k := OriginOf(e, i);
    a := StampOf(e.inputs[k], r);
    OriginNearIdeal(e.submitted[i], a, r.clock.epoch);
  }

  // ---- the encoder object ----

  function Silence(n: nat, channels: nat): (frames: seq<PcmFrame>)
    ensures |frames| == n
  {
    seq(n, _ => seq(channels, _ => 0))
  }

  lemma CopyStep(all: seq<PcmFrame>, front: seq<PcmFrame>, back: seq<PcmFrame>, at: nat, take: nat)
    requires at <= |all| && all[at..] == front + back && take <= |front|
    ensures all[..at + take] == all[..at] + front[..take]
    ensures take == |front| ==> all[at + take..] == back
  {
    assert forall k :: 0 <= k < take ==> all[at + k] == all[at..][k] == front[k];
    assert all[at + take..] == all[at..][take..];
  }

  // One round of the copying loop: the next piece of the buffered frames takes the
  // place of as much silence.
  lemma CopyRound(all: seq<PcmFrame>, front: seq<PcmFrame>, back: seq<PcmFrame>, at: nat, take: nat,
                  left: nat, channels: nat)
    requires at <= |all| && all[at..] == front + back && take <= |front| && take <= left
    ensures var frame := all[..at] + Silence(left, channels);
            frame[..at] + front[..take] + frame[at + take..] == all[..at + take] + Silence(left - take, channels)
    ensures take == |front| ==> all[at + take..] == back
  {
    CopyStep(all, front, back, at, take);
    CopyFrame(all[..at], front[..take], left, channels);
  }

  // The first `at` buffered frames are copied, and those of the chunks from `index` on
  // are the next ones, unless nothing remains to be copied.
  ghost predicate Copied(pending: seq<Pending>, index: nat, at: nat, remaining: nat, frame: seq<PcmFrame>,
                         codec: nat, channels: nat)
    requires AllLive(pending) && index <= |pending|
  {
    && at + remaining <= codec && at + remaining <= |Buffered(pending)|
    && frame == Buffered(pending)[..at] + Silence(codec - at, channels)
    && (remaining != 0 ==> Buffered(pending)[at..] == Buffered(pending[index..]))
  }

  lemma CopyNext(pending: seq<Pending>, index: nat, at: nat, remaining: nat, frame: seq<PcmFrame>,
                 codec: nat, channels: nat)
    requires AllLive(pending) && index < |pending| && remaining != 0
    requires Copied(pending, index, at, remaining, frame, codec, channels)
    ensures var p := pending[index]; var take := Min(Available(p), remaining);
      && at + take <= |frame|
      && Copied(pending, index + 1, at + take, remaining - take,
                frame[..at] + p.piece.frames[p.consumed..p.consumed + take] + frame[at + take..], codec, channels)
  {
    var p := pending[index];
    var take := Min(Available(p), remaining);
    var front := p.piece.frames[p.consumed..];
    assert pending[index..][0] == p && pending[index..][1..] == pending[index + 1..];
    assert front[..take] == p.piece.frames[p.consumed..p.consumed + take];
    CopyRound(Buffered(pending), front, Buffered(pending[index + 1..]), at, take, codec - at, channels);
  }

  // With every chunk copied nothing remains.
  lemma CopyEnds(pending: seq<Pending>, at: nat, remaining: nat, frame: seq<PcmFrame>, codec: nat, channels: nat)
    requires AllLive(pending) && Copied(pending, |pending|, at, remaining, frame, codec, channels)
    ensures remaining == 0
  {
    assert pending[|pending|..] == [];
  }

  lemma CopyFrame(done: seq<PcmFrame>, piece: seq<PcmFrame>, left: nat, channels: nat)
    requires |piece| <= left
    ensures var frame := done + Silence(left, channels);
            frame[..|done|] + piece + frame[|done| + |piece|..]
              == (done + piece) + Silence(left - |piece|, channels)
  {
  }

  // The loop over the frames of one chunk.
  method CopyFrames(frame: seq<PcmFrame>, destination: nat, p: Pending, take: nat) returns (copied: seq<PcmFrame>)
    requires destination + take <= |frame| && p.consumed + take <= |p.piece.frames|
    ensures copied == frame[..destination] + p.piece.frames[p.consumed..p.consumed + take]
                      + frame[destination + take..]
  {
    copied := frame;
    var index := 0;
    while index < take
      invariant 0 <= index <= take
      invariant copied == frame[..destination] + p.piece.frames[p.consumed..p.consumed + index]
                          + frame[destination + index..]
    {
      copied := copied[destination + index := p.piece.frames[p.consumed + index]];
      index := index + 1;
    }
  }

  // The loop over the buffered chunks.
  method CopyPending(pending: seq<Pending>, source: nat, codec: nat, channels: nat) returns (frame: seq<PcmFrame>)
    requires AllLive(pending) && source <= codec && source <= |Buffered(pending)|
    ensures frame == Buffered(pending)[..source] + Silence(codec - source, channels)
  {
    frame := Silence(codec, channels);
    var index: nat, destination: nat, remaining: nat := 0, 0, source;
    while index < |pending| && remaining != 0
      invariant index <= |pending| && destination + remaining == source
      invariant Copied(pending, index, destination, remaining, frame, codec, channels)
    {
      var p := pending[index];
      var take := Min(|p.piece.frames| - p.consumed, remaining);
      CopyNext(pending, index, destination, remaining, frame, codec, channels);
      frame := CopyFrames(frame, destination, p, take);
      destination := destination + take;
      remaining := remaining - take;
      index := index + 1;
    }
    if index == |pending| {
      CopyEnds(pending, destination, remaining, frame, codec, channels);
    }
    if remaining != 0 {
      assert false; // not enough buffered PCM
    }
  }

  class FfmpegAacEncoder {
    const rate: uint32
    const channels: uint16
    const frameSize: nat
    const smallLast: bool
    var codecOpen: bool
    var drained: bool
    var pending: seq<Pending>
    var pendingFrames: nat
    var haveInput: bool
    var expected: nat
    var submittedFrames: nat
    ghost var submitted: seq<Submitted>
    ghost var inputs: seq<Piece>

    ghost function Model(): Encoder
      reads this
    {
      Encoder(rate, channels, frameSize, smallLast, codecOpen, drained, pending, pendingFrames,
              haveInput, expected, submitted, inputs)
    }

    ghost predicate Valid()
      reads this
    {
      Coherent(Model()) && submittedFrames == |submitted|
    }

    constructor (rate: uint32, channels: uint16, frameSize: nat, smallLast: bool)
      requires rate > 0 && (channels == 1 || channels == 2) && frameSize > 0 // Initialize throws
      ensures Valid() && Model() == NewEncoder(rate, channels, frameSize, smallLast)
    {
      this.rate, this.channels, this.frameSize, this.smallLast := rate, channels, frameSize, smallLast;
      codecOpen, drained, pending, pendingFrames := true, false, [], 0;
      haveInput, expected, submittedFrames, submitted, inputs := false, 0, 0, [], [];
    }

    // The samples of the next codec frame, silence at its end.
    method BuildFrame(source: nat, codec: nat) returns (ok: bool, frame: seq<PcmFrame>, interval: Interval)
      requires Coherent(Model())
      ensures ok == Buildable(Model(), source, codec)
      ensures ok ==> interval == Built(Model(), source, codec).interval
      ensures ok ==> frame == Built(Model(), source, codec).samples + Silence(codec - source, channels)
    {
      frame, interval := [], Interval(0, 0, 0, false);
      if !codecOpen || source == 0 || codec < source || source > pendingFrames || pending == [] {
        ok := false;
        return;
      }
      interval := Interval(Position(pending[0]), source,
                           pending[0].piece.chunk.ptsNs + Ns(pending[0].consumed, rate),
                           pending[0].consumed == 0 && pending[0].piece.chunk.raw.discontinuity);
      frame := CopyPending(pending, source, codec, channels);
      ok := true;
    }

    method ConsumePending(frames: nat)
      requires Coherent(Model()) && frames <= pendingFrames // ConsumePending rejects more
      modifies this`pending, this`pendingFrames
      ensures pending == Consumed(old(pending), frames) && pendingFrames == old(pendingFrames) - frames
    {
      var remaining := frames;
      while remaining != 0
        invariant AllLive(pending) && 0 <= remaining <= |Buffered(pending)| && remaining <= frames
        invariant Consumed(pending, remaining) == Consumed(old(pending), frames)
        invariant pendingFrames == old(pendingFrames) - (frames - remaining)
        decreases remaining
      {
        var front := pending[0];
        var available := |front.piece.frames| - front.consumed;
        var take := Min(available, remaining);
        remaining := remaining - take;
        pendingFrames := pendingFrames - take;
        if front.consumed + take == |front.piece.frames| {
          pending := pending[1..];
        } else {
          pending := [front.(consumed := front.consumed + take)] + pending[1..];
        }
      }
    }

    method SubmitFrame(source: nat, codec: nat, answer: Answer) returns (ok: bool)
      requires Valid()
      modifies this
      ensures Valid()
      ensures (Model(), ok) == Submit(old(Model()), source, codec, answer)
    {
      SubmitCoherent(Model(), source, codec, answer);
      var built, frame, interval := BuildFrame(source, codec);
      if !built {
        return false;
      }
      if answer == SendFails {
        return false;
      }
      submittedFrames := submittedFrames + 1;
      submitted := submitted + [Submitted(interval, frame[..source], codec - source, pending[0].piece)];
      ConsumePending(source);
      return answer == Taken;
    }

    method TakeChunk(t: Timed)
      requires Valid() && ValidTimed(t)
      modifies this
      ensures Valid() && Model() == Pushed(old(Model()), Piece(t, FramesOf(t.raw)))
    {
      ghost var piece := Piece(t, FramesOf(t.raw));
      PushedCoherent(Model(), piece);
      pending := pending + [Pending(Piece(t, FramesOf(t.raw)), 0)];
      pendingFrames := pendingFrames + t.raw.count;
      haveInput := true;
      expected := t.raw.first + t.raw.count;
      inputs := inputs + [piece];
    }

    method Encode(t: Timed, reset: Reset, answers: nat -> Answer) returns (ok: bool)
      requires Valid()
      modifies this
      ensures Valid()
      ensures (Model(), ok) == Encoded(old(Model()), t, reset, answers)
    {
      if drained || !ValidTimed(t) || t.raw.rate != rate || t.raw.channels != channels {
        return false;
      }
      if haveInput && !t.raw.discontinuity && t.raw.first != expected {
        return false;
      }
      if haveInput && t.raw.discontinuity {
        if pendingFrames != 0 || reset == DrainFails {
          return false;
        }
        if reset == ReopenFails {
          codecOpen := false;
          return false;
        }
      }
      assert !Refused(old(Model()), t, reset);
      TakeChunk(t);
      ghost var pushed := Model();
      while pendingFrames >= frameSize
        invariant Valid()
        invariant SubmitAll(Model(), answers) == SubmitAll(pushed, answers)
        decreases pendingFrames
      {
        var submits := SubmitFrame(frameSize, frameSize, answers(submittedFrames));
        if !submits {
          return false;
        }
      }
      return true;
    }

    method Flush(answer: Answer, drains: bool) returns (ok: bool)
      requires Valid()
      modifies this
      ensures Valid()
      ensures (Model(), ok) == Flushed(old(Model()), answer, drains)
    {
      if drained {
        return true;
      }
      if pendingFrames != 0 {
        var source := pendingFrames;
        var codec := source;
        if !smallLast {
          codec := frameSize;
        }
        var submits := SubmitFrame(source, codec, answer);
        if !submits {
          return false;
        }
      }
      if !drains {
        return false;
      }
      drained := true;
      return true;
    }
  }
}
