/** The resynchronising stream parser and the segment specification it refines. */
module UartParsers {
  import opened Wrappers
  import opened Transducers
  import opened Octets
  import opened UartFrames

  datatype Stats = Stats(
    inputBytes: nat, noiseBytes: nat, validFrames: nat, emptyFrames: nat,
    crcErrors: nat, lengthErrors: nat, versionErrors: nat, unknownTypeErrors: nat,
    oversizeErrors: nat, escapeErrors: nat, timeoutErrors: nat)

  const NO_STATS := Stats(0, 0, 0, 0, 0, 0, 0, 0, 0, 0, 0)

  // `activity` is the time of the last byte of the candidate frame.
  datatype Parser = Parser(
    timeoutMs: nat, collecting: bool, escapePending: bool, discarding: bool,
    activity: Option<nat>, raw: seq<byte>, stats: Stats)

  function Fresh(timeoutMs: nat): Parser {
    Parser(timeoutMs, false, false, false, None, [], NO_STATS)
  }

  // ---- the parser, one byte at a time ----

  function Restarted(p: Parser, collecting: bool): Parser {
    p.(collecting := collecting, escapePending := false, discarding := false,
       activity := None, raw := [])
  }

  predicate Expired(p: Parser, now: nat) {
    && p.collecting && p.activity.Some? && p.timeoutMs != 0
    && now >= p.activity.value && now - p.activity.value > p.timeoutMs
  }

  function Ticked(p: Parser, now: nat): Parser {
    if Expired(p, now) then
      Restarted(p.(stats := p.stats.(timeoutErrors := p.stats.timeoutErrors + 1)), false)
    else p
  }

  function Discarding(p: Parser): Parser {
    p.(discarding := true, escapePending := false, raw := [])
  }

  function EscapeError(stats: Stats): Stats {
    stats.(escapeErrors := stats.escapeErrors + 1)
  }

  function OversizeError(stats: Stats): Stats {
    stats.(oversizeErrors := stats.oversizeErrors + 1)
  }

  function Appended(p: Parser, value: byte): Parser {
    if |p.raw| >= MAX_RAW_FRAME_SIZE then Discarding(p.(stats := OversizeError(p.stats)))
    else p.(raw := p.raw + [value])
  }

  function Accounted(stats: Stats, error: FrameError): Stats {
    match error
    case CRC => stats.(crcErrors := stats.crcErrors + 1)
    case VERSION => stats.(versionErrors := stats.versionErrors + 1)
    case UNKNOWN_TYPE => stats.(unknownTypeErrors := stats.unknownTypeErrors + 1)
    case OVERSIZE => stats.(oversizeErrors := stats.oversizeErrors + 1)
    case TOO_SHORT => stats.(lengthErrors := stats.lengthErrors + 1)
    case LENGTH => stats.(lengthErrors := stats.lengthErrors + 1)
  }

  function Judged(stats: Stats, decoded: Decoded): Stats {
    match decoded
    case Accepted(_) => stats.(validFrames := stats.validFrames + 1)
    case Rejected(error) => Accounted(stats, error)
  }

  function FrameOf(decoded: Decoded): seq<Frame> {
    if decoded.Accepted? then [decoded.frame] else []
  }

  ghost function OnFlag(p: Parser): (Parser, seq<Frame>) {
    if !p.collecting then (Restarted(p, true), [])
    else if p.escapePending then
      (Restarted(p.(stats := EscapeError(p.stats)), true), [])
    else if p.discarding then (Restarted(p, true), [])
    else if p.raw == [] then
      (p.(stats := p.stats.(emptyFrames := p.stats.emptyFrames + 1)), [])
    else
      var decoded := Decode(p.raw);
      (Restarted(p.(stats := Judged(p.stats, decoded)), true), FrameOf(decoded))
  }

  predicate Escapable(value: byte) {
    value == FRAME_FLAG ^ ESCAPE_XOR || value == FRAME_ESCAPE ^ ESCAPE_XOR
  }

  // A byte other than the flag, inside a candidate frame.
  function OnData(p: Parser, value: byte): Parser {
    if p.discarding then p
    else if p.escapePending then
      var q := p.(escapePending := false);
      if Escapable(value) then Appended(q, value ^ ESCAPE_XOR)
      else Discarding(q.(stats := EscapeError(q.stats)))
    else if value == FRAME_ESCAPE then p.(escapePending := true)
    else Appended(p, value)
  }

  ghost function OnByte(p: Parser, value: byte, now: nat): (Parser, seq<Frame>) {
    var q := p.(stats := p.stats.(inputBytes := p.stats.inputBytes + 1));
    if value == FRAME_FLAG then OnFlag(q)
    else if !p.collecting then
      (q.(stats := q.stats.(noiseBytes := q.stats.noiseBytes + 1)), [])
    else (OnData(q.(activity := Some(now)), value), [])
  }

  ghost function ByteAt(now: nat): (Parser, byte) -> (Parser, seq<Frame>) {
    (p: Parser, value: byte) => OnByte(p, value, now)
  }

  ghost function Fed(p: Parser, data: seq<byte>, now: nat): (Parser, seq<Frame>) {
    Run(ByteAt(now), Ticked(p, now), data)
  }

  lemma FedNext(p: Parser, data: seq<byte>, index: nat, now: nat)
    requires index < |data|
    ensures var (before, frames) := Run(ByteAt(now), p, data[..index]);
            var (after, more) := OnByte(before, data[index], now);
            Run(ByteAt(now), p, data[..index + 1]) == (after, frames + more)
  {
    assert data[..index + 1] == data[..index] + [data[index]];
    RunSnoc(ByteAt(now), p, data[..index], data[index]);
  }

  class FrameParser {
    const assemblyTimeoutMs: nat
    var collecting: bool
    var escapePending: bool
    var discardUntilFlag: bool
    var hasActivityTime: bool
    var lastActivityMs: nat
    const raw: array<byte>
    var rawSize: nat
    var stats: Stats

    ghost predicate Valid()
      reads this
    {
      raw.Length == MAX_RAW_FRAME_SIZE && rawSize <= raw.Length
    }

    ghost function Model(): Parser
      requires Valid()
      reads this, raw
    {
      Parser(assemblyTimeoutMs, collecting, escapePending, discardUntilFlag,
             if hasActivityTime then Some(lastActivityMs) else None, raw[..rawSize], stats)
    }

    constructor (assemblyTimeoutMs: nat)
      ensures Valid() && fresh(raw) && Model() == Fresh(assemblyTimeoutMs)
    {
      this.assemblyTimeoutMs := assemblyTimeoutMs;
      collecting, escapePending, discardUntilFlag := false, false, false;
      hasActivityTime, lastActivityMs := false, 0;
      raw := new byte[MAX_RAW_FRAME_SIZE](_ => 0);
      rawSize := 0;
      stats := NO_STATS;
    }

    method ResetCandidate(collecting: bool)
      requires Valid()
      modifies this
      ensures Valid() && Model() == Restarted(old(Model()), collecting)
    {
      this.collecting := collecting;
      escapePending, discardUntilFlag := false, false;
      hasActivityTime, lastActivityMs := false, 0;
      rawSize := 0;
    }

    method DiscardUntilFlag()
      requires Valid()
      modifies this
      ensures Valid() && Model() == Discarding(old(Model()))
    {
      discardUntilFlag, escapePending := true, false;
      rawSize := 0;
    }

    method AppendRaw(value: byte)
      requires Valid()
      modifies this, raw
      ensures Valid() && Model() == Appended(old(Model()), value)
    {
      if rawSize >= raw.Length {
        stats := OversizeError(stats);
        DiscardUntilFlag();
        return;
      }
      raw[rawSize] := value;
      rawSize := rawSize + 1;
    }

    method Tick(now: nat)
      requires Valid()
      modifies this
      ensures Valid() && Model() == Ticked(old(Model()), now)
    {
      if !collecting || !hasActivityTime || assemblyTimeoutMs == 0 {
        return;
      }
      if now >= lastActivityMs && now - lastActivityMs > assemblyTimeoutMs {
        stats := stats.(timeoutErrors := stats.timeoutErrors + 1);
        ResetCandidate(false);
      }
    }

    method Reset()
      requires Valid()
      modifies this
      ensures Valid() && Model() == Fresh(assemblyTimeoutMs)
    {
      stats := NO_STATS;
      ResetCandidate(false);
    }

    method HandleFlag(frames: seq<Frame>) returns (grown: seq<Frame>)
      requires Valid()
      modifies this
      ensures Valid()
      ensures (Model(), grown) == (OnFlag(old(Model())).0, frames + OnFlag(old(Model())).1)
    {
      grown := frames;
      assert raw[..rawSize] == [] <==> rawSize == 0;
      assert frames + [] == frames;
      if !collecting {
        ResetCandidate(true);
        return;
      }
      if escapePending {
        stats := EscapeError(stats);
        ResetCandidate(true);
        return;
      }
      if discardUntilFlag {
        ResetCandidate(true);
        return;
      }
      if rawSize == 0 {
        stats := stats.(emptyFrames := stats.emptyFrames + 1);
        return;
      }
      grown := JudgeCandidate(frames);
      ResetCandidate(true);
    }

    // Delivers or counts the collected bytes.
    method JudgeCandidate(frames: seq<Frame>) returns (grown: seq<Frame>)
      requires Valid()
      modifies this`stats
      ensures Valid()
      ensures var decoded := Decode(old(Model()).raw);
        grown == frames + FrameOf(decoded) && Model() == old(Model()).(stats := Judged(old(stats), decoded))
    {
      var decoded := DecodeRawFrame(raw[..rawSize]);
      grown := frames;
      match decoded {
        case Accepted(frame) =>
          grown := grown + [frame];
          stats := stats.(validFrames := stats.validFrames + 1);
        case Rejected(error) =>
          stats := Accounted(stats, error);
      }
    }

    method HandleData(value: byte)
      requires Valid() && value != FRAME_FLAG
      modifies this, raw
      ensures Valid() && Model() == OnData(old(Model()), value)
    {
      if discardUntilFlag {
        return;
      }
      if escapePending {
        escapePending := false;
        if value != FRAME_FLAG ^ ESCAPE_XOR && value != FRAME_ESCAPE ^ ESCAPE_XOR {
          stats := EscapeError(stats);
          DiscardUntilFlag();
          return;
        }
        AppendRaw(value ^ ESCAPE_XOR);
        return;
      }
      if value == FRAME_ESCAPE {
        escapePending := true;
        return;
      }
      AppendRaw(value);
    }

    // The body of the loop in Feed.
    method FeedByte(value: byte, now: nat, frames: seq<Frame>) returns (grown: seq<Frame>)
      requires Valid()
      modifies this, raw
      ensures Valid()
      ensures Model() == OnByte(old(Model()), value, now).0
      ensures grown == frames + OnByte(old(Model()), value, now).1
    {
      grown := frames;
      stats := stats.(inputBytes := stats.inputBytes + 1);
      if value == FRAME_FLAG {
        grown := HandleFlag(grown);
        return;
      }
      if !collecting {
        stats := stats.(noiseBytes := stats.noiseBytes + 1);
        return;
      }
      hasActivityTime, lastActivityMs := true, now;
      HandleData(value);
    }

    method Feed(data: seq<byte>, now: nat, frames: seq<Frame>) returns (grown: seq<Frame>)
      requires Valid()
      modifies this, raw
      ensures Valid()
      ensures Model() == Fed(old(Model()), data, now).0
      ensures grown == frames + Fed(old(Model()), data, now).1
    {
      grown := frames;
      Tick(now);
      ghost var start := Model();
      var index := 0;
      while index < |data|
        invariant Valid() && 0 <= index <= |data|
        invariant Model() == Run(ByteAt(now), start, data[..index]).0
        invariant grown == frames + Run(ByteAt(now), start, data[..index]).1
      {
        FedNext(start, data, index, now);
        grown := FeedByte(data[index], now, grown);
        index := index + 1;
      }
      assert data[..index] == data;
    }
  }

  // ---- the specification: segments between flags ----

  datatype Split = Split(noise: seq<byte>, begun: bool, closed: seq<seq<byte>>, tail: seq<byte>)

  function SplitNext(s: Split, value: byte): Split {
    if value == FRAME_FLAG then
      if s.begun then s.(closed := s.closed + [s.tail], tail := []) else s.(begun := true)
    else if s.begun then s.(tail := s.tail + [value])
    else s.(noise := s.noise + [value])
  }

  // The bytes before the first flag, the segments closed since, the open rest.
  function SplitOf(stream: seq<byte>): Split {
    if stream == [] then Split([], false, [], [])
    else SplitNext(SplitOf(stream[..|stream| - 1]), stream[|stream| - 1])
  }

  function Joined(segments: seq<seq<byte>>): seq<byte> {
    if segments == [] then []
    else Joined(segments[..|segments| - 1]) + segments[|segments| - 1] + [FRAME_FLAG]
  }

  function Rejoined(s: Split): seq<byte> {
    if s.begun then s.noise + [FRAME_FLAG] + Joined(s.closed) + s.tail else s.noise
  }

  ghost predicate FlagFree(s: Split) {
    && FRAME_FLAG !in s.noise && FRAME_FLAG !in s.tail
    && (forall i :: 0 <= i < |s.closed| ==> FRAME_FLAG !in s.closed[i])
    && (!s.begun ==> s.closed == [] && s.tail == [])
  }

  lemma NextRejoins(s: Split, value: byte)
    requires FlagFree(s)
    ensures FlagFree(SplitNext(s, value))
    ensures Rejoined(SplitNext(s, value)) == Rejoined(s) + [value]
  {
    var next := SplitNext(s, value);
    if value == FRAME_FLAG && s.begun {
      assert next.closed[..|next.closed| - 1] == s.closed;
      assert Joined(next.closed) == Joined(s.closed) + s.tail + [FRAME_FLAG];
    } else if value == FRAME_FLAG {
      assert Joined(next.closed) == [];
    }
  }

  // The split loses nothing, and no part of it contains a flag.
  lemma {:induction false} SplitIsFaithful(stream: seq<byte>)
    ensures Rejoined(SplitOf(stream)) == stream && FlagFree(SplitOf(stream))
    decreases |stream|
  {
    if stream != [] {
      var front, value := stream[..|stream| - 1], stream[|stream| - 1];
      SplitIsFaithful(front);
      NextRejoins(SplitOf(front), value);
      assert stream == front + [value];
    }
  }

  // Unstuffing a flag-free segment from the left.
  datatype Scan = Scanned(raw: seq<byte>, pending: bool) | BadEscape | TooLong

  function ScanNext(scan: Scan, value: byte): Scan {
    if !scan.Scanned? then scan
    else if scan.pending && !Escapable(value) then BadEscape
    else if !scan.pending && value == FRAME_ESCAPE then scan.(pending := true)
    else if |scan.raw| >= MAX_RAW_FRAME_SIZE then TooLong
    else Scanned(scan.raw + [if scan.pending then value ^ ESCAPE_XOR else value], false)
  }

  function ScanOf(segment: seq<byte>): Scan {
    if segment == [] then Scanned([], false)
    else ScanNext(ScanOf(segment[..|segment| - 1]), segment[|segment| - 1])
  }

  datatype Outcome = EmptySegment | EscapeFault | OversizeFault | Framed(decoded: Decoded)

  ghost function OutcomeOf(segment: seq<byte>): Outcome {
    match ScanOf(segment)
    case BadEscape => EscapeFault
    case TooLong => OversizeFault
    case Scanned(raw, pending) =>
      if pending then EscapeFault
      else if raw == [] then EmptySegment
      else Framed(Decode(raw))
  }

  function Counted(stats: Stats, outcome: Outcome): Stats {
    match outcome
    case EmptySegment => stats.(emptyFrames := stats.emptyFrames + 1)
    case EscapeFault => EscapeError(stats)
    case OversizeFault => OversizeError(stats)
    case Framed(decoded) => Judged(stats, decoded)
  }

  // The frames of the closed segments, in order.
  ghost function Frames(closed: seq<seq<byte>>): seq<Frame> {
    if closed == [] then []
    else
      var outcome := OutcomeOf(closed[|closed| - 1]);
      Frames(closed[..|closed| - 1]) + if outcome.Framed? then FrameOf(outcome.decoded) else []
  }

  ghost function FramesOf(stream: seq<byte>): seq<Frame> {
    Frames(SplitOf(stream).closed)
  }

  ghost function Outcomes(closed: seq<seq<byte>>): Stats {
    if closed == [] then NO_STATS
    else Counted(Outcomes(closed[..|closed| - 1]), OutcomeOf(closed[|closed| - 1]))
  }

  // A fault is counted when it is met, before its segment is closed.
  predicate Faulty(tail: seq<byte>) {
    !ScanOf(tail).Scanned?
  }

  ghost function Faults(s: Split): Stats {
    if Faulty(s.tail) then Counted(Outcomes(s.closed), OutcomeOf(s.tail)) else Outcomes(s.closed)
  }

  function WithBytes(stats: Stats, input: nat, noise: nat): Stats {
    stats.(inputBytes := input, noiseBytes := noise)
  }

  ghost function StatsOf(stream: seq<byte>): Stats {
    WithBytes(Faults(SplitOf(stream)), |stream|, |SplitOf(stream).noise|)
  }

  // ---- the parser refines it ----

  predicate Holds(p: Parser, scan: Scan) {
    match scan
    case Scanned(raw, pending) => !p.discarding && p.raw == raw && p.escapePending == pending
    case BadEscape => p.discarding && p.raw == [] && !p.escapePending
    case TooLong => p.discarding && p.raw == [] && !p.escapePending
  }

  ghost predicate Scanning(p: Parser, s: Split) {
    && p.collecting == s.begun
    && (s.begun ==> Holds(p, ScanOf(s.tail)))
  }

  ghost predicate Represents(p: Parser, stream: seq<byte>) {
    Scanning(p, SplitOf(stream)) && p.stats == StatsOf(stream)
  }

  lemma ScanSnoc(segment: seq<byte>, value: byte)
    ensures ScanOf(segment + [value]) == ScanNext(ScanOf(segment), value)
  {
    assert (segment + [value])[..|segment|] == segment;
  }

  lemma ClosedSnoc(closed: seq<seq<byte>>, segment: seq<byte>)
    ensures Outcomes(closed + [segment]) == Counted(Outcomes(closed), OutcomeOf(segment))
    ensures var outcome := OutcomeOf(segment);
            Frames(closed + [segment])
              == Frames(closed) + if outcome.Framed? then FrameOf(outcome.decoded) else []
  {
    assert (closed + [segment])[..|closed|] == closed;
  }

  lemma SplitSnoc(stream: seq<byte>, value: byte)
    ensures SplitOf(stream + [value]) == SplitNext(SplitOf(stream), value)
  {
    assert (stream + [value])[..|stream|] == stream;
  }

  lemma CountedKeepsBytes(stats: Stats, outcome: Outcome, input: nat, noise: nat)
    ensures Counted(WithBytes(stats, input, noise), outcome)
         == WithBytes(Counted(stats, outcome), input, noise)
  {
    match outcome {
      case EmptySegment =>
      case EscapeFault =>
      case OversizeFault =>
      case Framed(decoded) =>
        match decoded {
          case Accepted(_) =>
          case Rejected(error) =>
            match error {
              case CRC => case VERSION => case UNKNOWN_TYPE =>
              case OVERSIZE => case TOO_SHORT => case LENGTH =>
            }
        }
    }
  }

  // A flag in a candidate frame: a fault was counted before, any other outcome is now.
  lemma FlagCloses(p: Parser, segment: seq<byte>)
    requires p.collecting && Holds(p, ScanOf(segment))
    ensures var (q, frames) := OnFlag(p);
            var outcome := OutcomeOf(segment);
      && q.collecting && Holds(q, Scanned([], false))
      && q.stats == (if Faulty(segment) then p.stats else Counted(p.stats, outcome))
      && frames == if outcome.Framed? then FrameOf(outcome.decoded) else []
  {
  }

  function CountInput(p: Parser): Parser {
    p.(stats := WithBytes(p.stats, p.stats.inputBytes + 1, p.stats.noiseBytes))
  }

  lemma FlagRefines(p: Parser, stream: seq<byte>, now: nat)
    requires Represents(p, stream)
    ensures Scanning(OnByte(p, FRAME_FLAG, now).0, SplitOf(stream + [FRAME_FLAG]))
    ensures FramesOf(stream + [FRAME_FLAG])
         == FramesOf(stream) + OnByte(p, FRAME_FLAG, now).1
  {
    var s := SplitOf(stream);
    SplitSnoc(stream, FRAME_FLAG);
    SplitIsFaithful(stream);
    assert FramesOf(stream) + [] == FramesOf(stream);
    if s.begun {
      ClosedSnoc(s.closed, s.tail);
      FlagCloses(CountInput(p), s.tail);
    }
  }

  lemma FlagCounts(p: Parser, stream: seq<byte>, now: nat)
    requires Represents(p, stream)
    ensures OnByte(p, FRAME_FLAG, now).0.stats == StatsOf(stream + [FRAME_FLAG])
  {
    var s := SplitOf(stream);
    SplitSnoc(stream, FRAME_FLAG);
    SplitIsFaithful(stream);
    if s.begun {
      ClosedSnoc(s.closed, s.tail);
      FlagCloses(CountInput(p), s.tail);
      CountedKeepsBytes(Outcomes(s.closed), OutcomeOf(s.tail), |stream| + 1, |s.noise|);
      assert !Faulty([]);
    }
  }

  lemma DataScans(p: Parser, scan: Scan, value: byte)
    requires Holds(p, scan) && value != FRAME_FLAG
    ensures var q, next := OnData(p, value), ScanNext(scan, value);
      && Holds(q, next) && q.collecting == p.collecting
      && q.stats == if next.Scanned? || !scan.Scanned? then p.stats
                    else if next.BadEscape? then EscapeError(p.stats)
                    else OversizeError(p.stats)
  {
  }

  lemma DataRefines(p: Parser, stream: seq<byte>, value: byte, now: nat)
    requires Represents(p, stream) && value != FRAME_FLAG
    ensures Scanning(OnByte(p, value, now).0, SplitOf(stream + [value]))
    ensures FramesOf(stream + [value])
         == FramesOf(stream) + OnByte(p, value, now).1
  {
    var s := SplitOf(stream);
    SplitSnoc(stream, value);
    assert FramesOf(stream) + [] == FramesOf(stream);
    if s.begun {
      ScanSnoc(s.tail, value);
      DataScans(CountInput(p).(activity := Some(now)), ScanOf(s.tail), value);
    }
  }

  lemma DataCounts(p: Parser, stream: seq<byte>, value: byte, now: nat)
    requires Represents(p, stream) && value != FRAME_FLAG
    ensures OnByte(p, value, now).0.stats == StatsOf(stream + [value])
  {
    var s := SplitOf(stream);
    SplitSnoc(stream, value);
    SplitIsFaithful(stream);
    if s.begun {
      ScanSnoc(s.tail, value);
      DataScans(CountInput(p).(activity := Some(now)), ScanOf(s.tail), value);
      var next := SplitOf(stream + [value]);
      if Faulty(next.tail) && !Faulty(s.tail) {
        CountedKeepsBytes(Outcomes(s.closed), OutcomeOf(next.tail), |stream| + 1, |s.noise|);
      }
    }
  }

  lemma ByteRefines(p: Parser, stream: seq<byte>, value: byte, now: nat)
    requires Represents(p, stream)
    ensures Represents(OnByte(p, value, now).0, stream + [value])
    ensures FramesOf(stream + [value])
         == FramesOf(stream) + OnByte(p, value, now).1
  {
    if value == FRAME_FLAG {
      FlagRefines(p, stream, now);
      FlagCounts(p, stream, now);
    } else {
      DataRefines(p, stream, value, now);
      DataCounts(p, stream, value, now);
    }
  }

  lemma ChunkRefines(p: Parser, stream: seq<byte>, data: seq<byte>, now: nat)
    requires Represents(p, stream)
    ensures Represents(Run(ByteAt(now), p, data).0, stream + data)
    ensures FramesOf(stream + data) == FramesOf(stream) + Run(ByteAt(now), p, data).1
  {
    forall q, past, value | Represents(q, past)
      ensures Represents(OnByte(q, value, now).0, past + [value])
      ensures FramesOf(past + [value]) == FramesOf(past) + OnByte(q, value, now).1
    {
      ByteRefines(q, past, value, now);
    }
    Refines(ByteAt(now), Represents, FramesOf, p, stream, data);
  }

  datatype Chunk = Chunk(data: seq<byte>, now: nat)

  // Successive calls of Feed.
  ghost function FedAll(p: Parser, chunks: seq<Chunk>): (Parser, seq<Frame>) {
    Run((q: Parser, chunk: Chunk) => Fed(q, chunk.data, chunk.now), p, chunks)
  }

  // No call finds the candidate frame expired.
  ghost predicate Punctual(p: Parser, chunks: seq<Chunk>) {
    forall n :: 0 <= n < |chunks| ==> !Expired(FedAll(p, chunks[..n]).0, chunks[n].now)
  }

  function StreamOf(chunks: seq<Chunk>): seq<byte> {
    if chunks == [] then [] else StreamOf(chunks[..|chunks| - 1]) + chunks[|chunks| - 1].data
  }

  // However the stream is cut into chunks, the frames are those of its closed
  // segments and every counter is determined by them.
  lemma {:induction false} ParserRefinesSegments(timeoutMs: nat, chunks: seq<Chunk>)
    requires Punctual(Fresh(timeoutMs), chunks)
    ensures FedAll(Fresh(timeoutMs), chunks).1 == FramesOf(StreamOf(chunks))
    ensures FedAll(Fresh(timeoutMs), chunks).0.stats == StatsOf(StreamOf(chunks))
    ensures Represents(FedAll(Fresh(timeoutMs), chunks).0, StreamOf(chunks))
    decreases |chunks|
  {
    if chunks != [] {
      var front, last := chunks[..|chunks| - 1], chunks[|chunks| - 1];
      forall n | 0 <= n < |front| ensures !Expired(FedAll(Fresh(timeoutMs), front[..n]).0, front[n].now) {
        assert front[..n] == chunks[..n];
      }
      ParserRefinesSegments(timeoutMs, front);
      ChunkRefines(FedAll(Fresh(timeoutMs), front).0, StreamOf(front), last.data, last.now);
    }
  }

  lemma ChunkKeepsTimeout(p: Parser, chunk: Chunk)
    ensures Fed(p, chunk.data, chunk.now).0.timeoutMs == p.timeoutMs
  {
    forall q, value {
      ByteKeepsTimeout(q, value, chunk.now);
    }
    Keeps(ByteAt(chunk.now), (q: Parser) => q.timeoutMs == p.timeoutMs, Ticked(p, chunk.now), chunk.data);
  }

  lemma ByteKeepsTimeout(p: Parser, value: byte, now: nat)
    ensures OnByte(p, value, now).0.timeoutMs == p.timeoutMs
  {
  }

  // Without an assembly timeout every chunking is punctual.
  lemma {:induction false} TimeoutStaysZero(chunks: seq<Chunk>)
    ensures FedAll(Fresh(0), chunks).0.timeoutMs == 0
    decreases |chunks|
  {
    if chunks != [] {
      var front, last := chunks[..|chunks| - 1], chunks[|chunks| - 1];
      TimeoutStaysZero(front);
      ChunkKeepsTimeout(FedAll(Fresh(0), front).0, last);
    }
  }

  lemma ZeroTimeoutIsPunctual(chunks: seq<Chunk>)
    ensures Punctual(Fresh(0), chunks)
  {
    forall n | 0 <= n < |chunks| ensures !Expired(FedAll(Fresh(0), chunks[..n]).0, chunks[n].now) {
      TimeoutStaysZero(chunks[..n]);
    }
  }

  function OutcomeTotal(stats: Stats): nat {
    stats.validFrames + stats.emptyFrames + stats.crcErrors + stats.lengthErrors
    + stats.versionErrors + stats.unknownTypeErrors + stats.oversizeErrors + stats.escapeErrors
  }

  // Each closed segment is counted once, and so is an open one already given up.
  lemma {:induction false} EachSegmentCountsOnce(closed: seq<seq<byte>>)
    ensures OutcomeTotal(Outcomes(closed)) == |closed|
    decreases |closed|
  {
    if closed != [] {
      EachSegmentCountsOnce(closed[..|closed| - 1]);
      CountsOne(Outcomes(closed[..|closed| - 1]), OutcomeOf(closed[|closed| - 1]));
    }
  }

  lemma EveryOutcomeCountsOnce(stream: seq<byte>)
    ensures OutcomeTotal(StatsOf(stream))
         == |SplitOf(stream).closed| + if Faulty(SplitOf(stream).tail) then 1 else 0
  {
    var s := SplitOf(stream);
    EachSegmentCountsOnce(s.closed);
    CountsOne(Outcomes(s.closed), OutcomeOf(s.tail));
  }

  lemma CountsOne(stats: Stats, outcome: Outcome)
    ensures OutcomeTotal(Counted(stats, outcome)) == OutcomeTotal(stats) + 1
  {
    match outcome {
      case EmptySegment =>
      case EscapeFault =>
      case OversizeFault =>
      case Framed(decoded) =>
        match decoded {
          case Accepted(_) =>
          case Rejected(error) =>
            match error {
              case CRC => case VERSION => case UNKNOWN_TYPE =>
              case OVERSIZE => case TOO_SHORT => case LENGTH =>
            }
        }
    }
  }

  // ---- what a segment means ----

  lemma UnescapeByte(value: byte)
    ensures NeedsEscape(value) ==> Escapable(value ^ ESCAPE_XOR) && (value ^ ESCAPE_XOR) ^ ESCAPE_XOR == value
    ensures Escapable(value) ==> NeedsEscape(value ^ ESCAPE_XOR) && (value ^ ESCAPE_XOR) ^ ESCAPE_XOR == value
  {
  }

  lemma StuffSnoc(raw: seq<byte>, value: byte)
    ensures Stuff(raw + [value]) == Stuff(raw) + StuffByte(value)
  {
    StuffAppend(raw, [value]);
    assert Stuff([value]) == StuffByte(value);
  }

  lemma StuffedByteScans(segment: seq<byte>, raw: seq<byte>, value: byte)
    requires ScanOf(segment) == Scanned(raw, false) && |raw| < MAX_RAW_FRAME_SIZE
    ensures ScanOf(segment + StuffByte(value)) == Scanned(raw + [value], false)
  {
    UnescapeByte(value);
    if NeedsEscape(value) {
      var escaped := value ^ ESCAPE_XOR;
      assert segment + StuffByte(value) == (segment + [FRAME_ESCAPE]) + [escaped];
      ScanSnoc(segment, FRAME_ESCAPE);
      ScanSnoc(segment + [FRAME_ESCAPE], escaped);
    } else {
      ScanSnoc(segment, value);
    }
  }

  // Stuffed bytes scan back to themselves.
  lemma {:induction false} StuffScans(raw: seq<byte>)
    requires |raw| <= MAX_RAW_FRAME_SIZE
    ensures ScanOf(Stuff(raw)) == Scanned(raw, false)
    decreases |raw|
  {
    if raw != [] {
      var front, value := raw[..|raw| - 1], raw[|raw| - 1];
      StuffScans(front);
      assert raw == front + [value];
      StuffSnoc(front, value);
      StuffedByteScans(Stuff(front), front, value);
    }
  }

  // Whatever scans is a stuffing, followed by the escape byte when one is pending.
  lemma {:induction false} ScannedIsStuffed(segment: seq<byte>)
    requires FRAME_FLAG !in segment && ScanOf(segment).Scanned?
    ensures |ScanOf(segment).raw| <= MAX_RAW_FRAME_SIZE
    ensures segment == Stuff(ScanOf(segment).raw)
                     + if ScanOf(segment).pending then [FRAME_ESCAPE] else []
    decreases |segment|
  {
    if segment != [] {
      var front, value := segment[..|segment| - 1], segment[|segment| - 1];
      assert segment == front + [value];
      ScannedIsStuffed(front);
      var before := ScanOf(front);
      if before.pending {
        UnescapeByte(value);
        StuffSnoc(before.raw, value ^ ESCAPE_XOR);
      } else if value != FRAME_ESCAPE {
        StuffSnoc(before.raw, value);
      }
    }
  }

  // A segment yields a frame exactly when it is the stuffed encoding of that frame.
  lemma FramedIffEncoding(segment: seq<byte>, frame: Frame)
    requires FRAME_FLAG !in segment
    ensures OutcomeOf(segment) == Framed(Accepted(frame))
       <==> WellFormed(frame) && segment == Stuff(Raw(frame.header, frame.payload))
  {
    if WellFormed(frame) && segment == Stuff(Raw(frame.header, frame.payload)) {
      StuffScans(Raw(frame.header, frame.payload));
      AcceptedIffRaw(Raw(frame.header, frame.payload), frame);
    }
    if OutcomeOf(segment) == Framed(Accepted(frame)) {
      ScannedIsStuffed(segment);
      AcceptedIffRaw(ScanOf(segment).raw, frame);
    }
  }

  // ---- resynchronisation ----

  ghost predicate Clean(p: Parser) {
    p.collecting && !p.escapePending && !p.discarding
  }

  lemma StuffedByteCollects(p: Parser, value: byte, now: nat)
    requires Clean(p) && |p.raw| < MAX_RAW_FRAME_SIZE
    ensures var (q, frames) := Run(ByteAt(now), p, StuffByte(value));
            Clean(q) && q.raw == p.raw + [value] && frames == []
  {
    UnescapeByte(value);
    if NeedsEscape(value) {
      var escaped := value ^ ESCAPE_XOR;
      RunOne(ByteAt(now), p, FRAME_ESCAPE);
      RunSnoc(ByteAt(now), p, [FRAME_ESCAPE], escaped);
      assert StuffByte(value) == [FRAME_ESCAPE] + [escaped];
    } else {
      RunOne(ByteAt(now), p, value);
    }
  }

  lemma {:induction false} StuffedCollects(p: Parser, raw: seq<byte>, now: nat)
    requires Clean(p) && |p.raw| + |raw| <= MAX_RAW_FRAME_SIZE
    ensures var (q, frames) := Run(ByteAt(now), p, Stuff(raw));
            Clean(q) && q.raw == p.raw + raw && frames == []
    decreases |raw|
  {
    if raw != [] {
      var front, value := raw[..|raw| - 1], raw[|raw| - 1];
      StuffedCollects(p, front, now);
      assert raw == front + [value];
      StuffSnoc(front, value);
      RunAppend(ByteAt(now), p, Stuff(front), StuffByte(value));
      StuffedByteCollects(Run(ByteAt(now), p, Stuff(front)).0, value, now);
    }
  }

  lemma FlagCleans(p: Parser, now: nat)
    ensures var (q, frames) := OnByte(p, FRAME_FLAG, now);
            Clean(q) && q.raw == [] && |frames| <= 1
  {
  }

  lemma FlagDelivers(p: Parser, frame: Frame, now: nat)
    requires Clean(p) && WellFormed(frame) && p.raw == Raw(frame.header, frame.payload)
    ensures OnByte(p, FRAME_FLAG, now).1 == [frame]
  {
    AcceptedIffRaw(p.raw, frame);
  }

  // From any parser state, an encoded frame comes out last, after at most one other.
  lemma Resynchronises(p: Parser, header: Header, payload: seq<byte>, now: nat)
    requires Sendable(header, payload)
    ensures var frames := Fed(p, Encoded(header, payload).value, now).1;
      && 1 <= |frames| <= 2
      && frames[|frames| - 1] == Frame(header.(payloadLength := Length(|payload|)), payload)
  {
    var frame := Frame(header.(payloadLength := Length(|payload|)), payload);
    var raw, start := Raw(header, payload), Ticked(p, now);
    RunSnoc(ByteAt(now), start, [FRAME_FLAG] + Stuff(raw), FRAME_FLAG);
    RunAppend(ByteAt(now), start, [FRAME_FLAG], Stuff(raw));
    RunOne(ByteAt(now), start, FRAME_FLAG);
    FlagCleans(start, now);
    var cleaned := OnByte(start, FRAME_FLAG, now).0;
    StuffedCollects(cleaned, raw, now);
    assert [] + raw == raw == Raw(frame.header, frame.payload);
    FlagDelivers(Run(ByteAt(now), cleaned, Stuff(raw)).0, frame, now);
  }
}
