/** The acquire/lost hysteresis between raw detections and control results. */
module TargetTracker {
  import opened Wrappers

  const WRAP := 0x1_0000_0000

  type uint32 = x: int | 0 <= x < WRAP

  datatype TargetState = NO_TARGET | CANDIDATE | DETECTED | LOST | INVALID | STALE

  datatype Config = Config(acquireHits: uint32, lostMisses: uint32, maxAgeNs: int)

  // What the constructor demands.
  predicate Usable(c: Config) {
    c.acquireHits > 0 && c.lostMisses > 0 && c.maxAgeNs > 0
  }

  // One packet as the hysteresis sees it.
  datatype Kind = Stale | Invalid | Hit | Miss

  function KindOf(rawDetected: bool, rawInvalid: bool, stale: bool): Kind {
    if stale then Stale else if rawInvalid then Invalid else if rawDetected then Hit else Miss
  }

  // ---- the history-defined meaning ----

  // The `n` kinds before position `end` are all hits, or all something else.
  ghost predicate HitRun(kinds: seq<Kind>, end: int, n: int) {
    n <= end <= |kinds| && forall m :: end - n <= m < end ==> 0 <= m && kinds[m].Hit?
  }

  ghost predicate MissRun(kinds: seq<Kind>, end: int, n: int) {
    n <= end <= |kinds| && forall m :: end - n <= m < end ==> 0 <= m && !kinds[m].Hit?
  }

  // Some acquiring run of hits, and no losing run of other packets after it.
  ghost predicate AcquiredSince(kinds: seq<Kind>, c: Config, end: int) {
    HitRun(kinds, end, c.acquireHits)
    && forall j :: end + c.lostMisses <= j <= |kinds| ==> !MissRun(kinds, j, c.lostMisses)
  }

  ghost predicate Acquired(kinds: seq<Kind>, c: Config) {
    exists end :: 0 <= end <= |kinds| && AcquiredSince(kinds, c, end)
  }

  // The target was lost at packet `at`.
  ghost predicate LossAt(kinds: seq<Kind>, c: Config, at: int) {
    0 <= at < |kinds| && Acquired(kinds[..at], c) && !Acquired(kinds[..at + 1], c)
  }

  // A loss, and no detection since.
  ghost predicate Latched(kinds: seq<Kind>, c: Config) {
    exists at :: LossAt(kinds, c, at) && forall m :: at <= m < |kinds| ==> !kinds[m].Hit?
  }

  // What must be reported for the last packet.
  ghost function Report(kinds: seq<Kind>, c: Config): TargetState
    requires kinds != []
  {
    match kinds[|kinds| - 1]
    case Stale => STALE
    case Invalid => INVALID
    case Hit => if Acquired(kinds, c) then DETECTED else CANDIDATE
    case Miss => if Latched(kinds, c) then LOST else NO_TARGET
  }

  function TrailingHits(kinds: seq<Kind>): (n: nat)
    ensures n <= |kinds|
  {
    if kinds == [] || !kinds[|kinds| - 1].Hit? then 0 else TrailingHits(kinds[..|kinds| - 1]) + 1
  }

  function TrailingMisses(kinds: seq<Kind>): (n: nat)
    ensures n <= |kinds|
  {
    if kinds == [] || kinds[|kinds| - 1].Hit? then 0 else TrailingMisses(kinds[..|kinds| - 1]) + 1
  }

  // ---- the machine ----

  datatype Tracker = Tracker(hits: uint32, misses: uint32, acquired: bool, latched: bool)

  const IDLE := Tracker(0, 0, false, false)

  function Missed(t: Tracker, c: Config): Tracker {
    var misses := (t.misses + 1) % WRAP;
    if t.acquired && misses >= c.lostMisses then Tracker(0, misses, false, true)
    else t.(hits := 0, misses := misses)
  }

  function Classified(t: Tracker, c: Config, kind: Kind): (r: (Tracker, TargetState)) {
    match kind
    case Stale => (Missed(t, c), STALE)
    case Invalid => (Missed(t, c), INVALID)
    case Hit =>
      var hits := (t.hits + 1) % WRAP;
      if t.acquired || hits >= c.acquireHits then (Tracker(hits, 0, true, false), DETECTED)
      else (Tracker(hits, 0, false, false), CANDIDATE)
    case Miss =>
      var missed := Missed(t, c);
      (missed, if missed.latched then LOST else NO_TARGET)
  }

  function Play(c: Config, kinds: seq<Kind>): Tracker {
    if kinds == [] then IDLE
    else Classified(Play(c, kinds[..|kinds| - 1]), c, kinds[|kinds| - 1]).0
  }

  // ---- the machine computes the meaning ----

  // The counters count modulo 2^32; neither wraps while it matters.
  ghost predicate Tracks(t: Tracker, c: Config, kinds: seq<Kind>) {
    && t.hits == TrailingHits(kinds) % WRAP
    && t.misses == TrailingMisses(kinds) % WRAP
    && (!t.acquired ==> TrailingHits(kinds) < c.acquireHits)
    && (t.acquired ==> TrailingMisses(kinds) < c.lostMisses)
    && (t.acquired <==> Acquired(kinds, c))
    && (t.latched <==> Latched(kinds, c))
  }

  lemma {:induction false} HitRunIsTrailing(kinds: seq<Kind>, n: nat)
    ensures HitRun(kinds, |kinds|, n) <==> n <= TrailingHits(kinds)
    decreases |kinds|
  {
    if kinds != [] && n > 0 {
      var front := kinds[..|kinds| - 1];
      HitRunIsTrailing(front, n - 1);
      assert kinds[|kinds| - 1].Hit? ==> (HitRun(kinds, |kinds|, n) <==> HitRun(front, |front|, n - 1)) by {
        if kinds[|kinds| - 1].Hit? && HitRun(kinds, |kinds|, n) {
          forall m | |front| - (n - 1) <= m < |front| ensures 0 <= m && front[m].Hit? {
            assert kinds[m].Hit?;
          }
        }
      }
      assert HitRun(kinds, |kinds|, n) ==> kinds[|kinds| - 1].Hit?;
    }
  }

  lemma {:induction false} MissRunIsTrailing(kinds: seq<Kind>, n: nat)
    ensures MissRun(kinds, |kinds|, n) <==> n <= TrailingMisses(kinds)
    decreases |kinds|
  {
    if kinds != [] && n > 0 {
      var front := kinds[..|kinds| - 1];
      MissRunIsTrailing(front, n - 1);
      assert !kinds[|kinds| - 1].Hit? ==> (MissRun(kinds, |kinds|, n) <==> MissRun(front, |front|, n - 1)) by {
        if !kinds[|kinds| - 1].Hit? && MissRun(kinds, |kinds|, n) {
          forall m | |front| - (n - 1) <= m < |front| ensures 0 <= m && !front[m].Hit? {
            assert !kinds[m].Hit?;
          }
        }
      }
      assert MissRun(kinds, |kinds|, n) ==> !kinds[|kinds| - 1].Hit?;
    }
  }

  lemma RunsExtend(front: seq<Kind>, kind: Kind, end: int, n: int)
    requires 0 <= end <= |front|
    ensures HitRun(front + [kind], end, n) <==> HitRun(front, end, n)
    ensures MissRun(front + [kind], end, n) <==> MissRun(front, end, n)
  {
    assert forall m :: 0 <= m < |front| ==> (front + [kind])[m] == front[m];
  }

  lemma AcquiredExtend(front: seq<Kind>, kind: Kind, c: Config, end: int)
    requires 0 <= end <= |front|
    ensures AcquiredSince(front + [kind], c, end) <==>
              AcquiredSince(front, c, end)
              && !(end + c.lostMisses <= |front| + 1 && MissRun(front + [kind], |front| + 1, c.lostMisses))
  {
    var kinds := front + [kind];
    RunsExtend(front, kind, end, c.acquireHits);
    forall j | 0 <= j <= |front|
      ensures MissRun(kinds, j, c.lostMisses) <==> MissRun(front, j, c.lostMisses)
    {
      RunsExtend(front, kind, j, c.lostMisses);
    }
  }

  // One more hit acquires when the run is long enough, and never loses.
  lemma HitAcquires(front: seq<Kind>, c: Config)
    requires Usable(c)
    ensures Acquired(front + [Hit], c)
       <==> Acquired(front, c) || TrailingHits(front) + 1 >= c.acquireHits
  {
    var kinds := front + [Hit];
    assert kinds[..|front|] == front;
    HitRunIsTrailing(kinds, c.acquireHits);
    assert !MissRun(kinds, |kinds|, c.lostMisses) by {
      assert kinds[|kinds| - 1].Hit?;
    }
    if Acquired(front, c) {
      var end :| 0 <= end <= |front| && AcquiredSince(front, c, end);
      AcquiredExtend(front, Hit, c, end);
      assert AcquiredSince(kinds, c, end);
    }
    if TrailingHits(front) + 1 >= c.acquireHits {
      assert AcquiredSince(kinds, c, |kinds|);
    }
    if Acquired(kinds, c) {
      var end :| 0 <= end <= |kinds| && AcquiredSince(kinds, c, end);
      if end <= |front| {
        AcquiredExtend(front, Hit, c, end);
        assert AcquiredSince(front, c, end);
      }
    }
  }

  // One more packet without a hit loses exactly when it completes a losing run.
  lemma MissLoses(front: seq<Kind>, kind: Kind, c: Config)
    requires Usable(c) && !kind.Hit?
    ensures Acquired(front + [kind], c)
       <==> Acquired(front, c) && TrailingMisses(front) + 1 < c.lostMisses
  {
    var kinds := front + [kind];
    assert kinds[..|front|] == front;
    MissRunIsTrailing(kinds, c.lostMisses);
    if Acquired(front, c) {
      var end :| 0 <= end <= |front| && AcquiredSince(front, c, end);
      AcquiredExtend(front, kind, c, end);
      if TrailingMisses(front) + 1 < c.lostMisses {
        assert AcquiredSince(kinds, c, end);
      }
    }
    if Acquired(kinds, c) {
      var end :| 0 <= end <= |kinds| && AcquiredSince(kinds, c, end);
      assert HitRun(kinds, end, c.acquireHits) && kinds[end - 1].Hit?;
      AcquiredExtend(front, kind, c, end);
      assert AcquiredSince(front, c, end);
      if MissRun(kinds, |kinds|, c.lostMisses) {
        assert HitRun(kinds, end, c.acquireHits);
        EndsBeforeMisses(kinds, c, end);
      }
    }
  }

  // A losing run that ends the history starts after every acquiring run.
  lemma EndsBeforeMisses(kinds: seq<Kind>, c: Config, end: int)
    requires Usable(c) && 0 <= end <= |kinds| && HitRun(kinds, end, c.acquireHits)
    requires MissRun(kinds, |kinds|, c.lostMisses)
    ensures end + c.lostMisses <= |kinds|
  {
    assert kinds[end - 1].Hit?;
  }

  lemma LatchAfterHit(front: seq<Kind>, c: Config)
    ensures !Latched(front + [Hit], c)
  {
    var kinds := front + [Hit];
    assert kinds[|kinds| - 1].Hit?;
  }

  lemma LossExtend(front: seq<Kind>, kind: Kind, c: Config, at: int)
    requires 0 <= at < |front|
    ensures LossAt(front + [kind], c, at) <==> LossAt(front, c, at)
  {
    assert (front + [kind])[..at] == front[..at];
    assert (front + [kind])[..at + 1] == front[..at + 1];
  }

  lemma LatchAfterMiss(front: seq<Kind>, kind: Kind, c: Config)
    requires !kind.Hit?
    ensures Latched(front + [kind], c)
       <==> Latched(front, c) || (Acquired(front, c) && !Acquired(front + [kind], c))
  {
    var kinds := front + [kind];
    assert kinds[..|front|] == front && kinds[..|front| + 1] == kinds;
    if Latched(front, c) {
      var at :| LossAt(front, c, at) && forall m :: at <= m < |front| ==> !front[m].Hit?;
      LossExtend(front, kind, c, at);
      assert LossAt(kinds, c, at);
    }
    if Acquired(front, c) && !Acquired(kinds, c) {
      assert LossAt(kinds, c, |front|);
    }
    if Latched(kinds, c) {
      var at :| LossAt(kinds, c, at) && forall m :: at <= m < |kinds| ==> !kinds[m].Hit?;
      if at < |front| {
        LossExtend(front, kind, c, at);
        assert LossAt(front, c, at);
        assert forall m :: at <= m < |front| ==> !kinds[m].Hit?;
      }
    }
  }

  lemma WrapNext(n: nat)
    ensures (n % WRAP + 1) % WRAP == (n + 1) % WRAP
    ensures n < WRAP - 1 ==> (n % WRAP + 1) % WRAP == n + 1
  {
  }

  lemma HitTracks(t: Tracker, c: Config, front: seq<Kind>)
    requires Usable(c) && Tracks(t, c, front)
    ensures Tracks(Classified(t, c, Hit).0, c, front + [Hit])
    ensures Classified(t, c, Hit).1 == Report(front + [Hit], c)
  {
    var kinds := front + [Hit];
    assert kinds[..|front|] == front;
    assert TrailingHits(kinds) == TrailingHits(front) + 1 && TrailingMisses(kinds) == 0;
    WrapNext(TrailingHits(front));
    HitAcquires(front, c);
    LatchAfterHit(front, c);
  }

  lemma MissTracks(t: Tracker, c: Config, front: seq<Kind>, kind: Kind)
    requires Usable(c) && Tracks(t, c, front) && !kind.Hit?
    ensures Tracks(Missed(t, c), c, front + [kind])
    ensures Classified(t, c, kind).1 == Report(front + [kind], c)
  {
    var kinds := front + [kind];
    assert kinds[..|front|] == front;
    assert TrailingMisses(kinds) == TrailingMisses(front) + 1 && TrailingHits(kinds) == 0;
    WrapNext(TrailingMisses(front));
    MissLoses(front, kind, c);
    LatchAfterMiss(front, kind, c);
  }

  lemma NextTracks(t: Tracker, c: Config, front: seq<Kind>, kind: Kind)
    requires Usable(c) && Tracks(t, c, front)
    ensures Tracks(Classified(t, c, kind).0, c, front + [kind])
    ensures Classified(t, c, kind).1 == Report(front + [kind], c)
  {
    if kind.Hit? {
      HitTracks(t, c, front);
    } else {
      MissTracks(t, c, front, kind);
    }
  }

  lemma NothingYet(c: Config)
    requires Usable(c)
    ensures Tracks(IDLE, c, [])
  {
    forall end | end == 0 ensures !AcquiredSince([], c, end) {
      assert !HitRun([], end, c.acquireHits);
    }
  }

  // After any history: acquired exactly when some acquiring run was not followed by a
  // losing run, and LOST exactly on plain misses since a loss with no detection since.
  lemma {:induction false} TrackerMeansHistory(c: Config, kinds: seq<Kind>)
    requires Usable(c)
    ensures Tracks(Play(c, kinds), c, kinds)
    ensures kinds != [] ==>
      Classified(Play(c, kinds[..|kinds| - 1]), c, kinds[|kinds| - 1]).1 == Report(kinds, c)
    decreases |kinds|
  {
    if kinds == [] {
      NothingYet(c);
    } else {
      TrackerMeansHistory(c, kinds[..|kinds| - 1]);
      NextTracks(Play(c, kinds[..|kinds| - 1]), c, kinds[..|kinds| - 1], kinds[|kinds| - 1]);
      assert kinds == kinds[..|kinds| - 1] + [kinds[|kinds| - 1]];
    }
  }

  // ---- publishing ----

  datatype Observation = Observation(state: TargetState, valid: bool)

  // The four components are reals: nothing here depends on their rounding.
  datatype TargetError = TargetError(state: TargetState, valid: bool, dx: real, dy: real, errorX: real, errorY: real)

  datatype Packet = Packet(captureNs: int, target: Option<Observation>, error: TargetError)

  datatype Control = Control(
    state: TargetState, valid: bool, observation: Observation, error: TargetError, ageNs: int)

  predicate RawDetected(p: Packet) {
    p.target.Some? && p.target.value.state == DETECTED && p.target.value.valid && p.error.valid
  }

  predicate RawInvalid(p: Packet) {
    (p.target.Some? && p.target.value.state == INVALID) || p.error.state == INVALID
  }

  predicate TimestampValid(p: Packet, now: int) {
    p.captureNs > 0 && now >= p.captureNs
  }

  function AgeOf(p: Packet, now: int): int {
    if TimestampValid(p, now) then now - p.captureNs else 0
  }

  function PacketKind(c: Config, p: Packet, now: int): Kind {
    KindOf(RawDetected(p), RawInvalid(p) || !TimestampValid(p, now),
           TimestampValid(p, now) && AgeOf(p, now) > c.maxAgeNs)
  }

  function MakeControlError(p: Packet, state: TargetState): TargetError {
    if state == DETECTED && p.error.valid then p.error.(state := state)
    else TargetError(state, false, 0.0, 0.0, 0.0, 0.0)
  }

  datatype Machine = Machine(
    tracker: Tracker, processed: nat, validControls: nat, invalidTimestamps: nat,
    counts: seq<nat>, latest: TargetState, maximumAgeNs: int)

  function Index(state: TargetState): (i: nat)
    ensures i < 6
  {
    match state
    case NO_TARGET => 0
    case CANDIDATE => 1
    case DETECTED => 2
    case LOST => 3
    case INVALID => 4
    case STALE => 5
  }

  function NoCounts(): (counts: seq<nat>)
    ensures AllCounted(counts)
  {
    [0, 0, 0, 0, 0, 0]
  }

  predicate AllCounted(counts: seq<nat>) {
    |counts| == 6
  }

  const NEW_MACHINE := Machine(IDLE, 0, 0, 0, NoCounts(), NO_TARGET, 0)

  function Published(m: Machine, c: Config, p: Packet, now: int): (r: (Machine, Control))
    requires AllCounted(m.counts)
    ensures AllCounted(r.0.counts)
  {
    var (tracker, state) := Classified(m.tracker, c, PacketKind(c, p, now));
    var error := MakeControlError(p, state);
    var age := AgeOf(p, now);
    (Machine(tracker, m.processed + 1, m.validControls + (if error.valid then 1 else 0),
             m.invalidTimestamps + (if TimestampValid(p, now) then 0 else 1),
             m.counts[Index(state) := m.counts[Index(state)] + 1], state,
             if m.maximumAgeNs < age then age else m.maximumAgeNs),
     Control(state, error.valid, Observation(state, state == DETECTED), error, age))
  }

  class TargetStateMachine {
    const config: Config
    var hits: uint32
    var misses: uint32
    var acquired: bool
    var latched: bool
    var processed: nat
    var validControls: nat
    var invalidTimestamps: nat
    var counts: seq<nat>
    var latest: TargetState
    var maximumAgeNs: int

    ghost function Model(): Machine
      reads this
    {
      Machine(Tracker(hits, misses, acquired, latched), processed, validControls, invalidTimestamps,
              counts, latest, maximumAgeNs)
    }

    constructor (config: Config)
      requires Usable(config) // TargetStateMachine rejects any other
      ensures this.config == config && Model() == NEW_MACHINE
    {
      this.config := config;
      hits, misses, acquired, latched := 0, 0, false, false;
      processed, validControls, invalidTimestamps := 0, 0, 0;
      counts, latest, maximumAgeNs := NoCounts(), NO_TARGET, 0;
    }

    method CountMiss()
      modifies this
      ensures Model() == old(Model()).(tracker := Missed(old(Model()).tracker, config))
    {
      hits := 0;
      misses := (misses + 1) % WRAP;
      if acquired && misses >= config.lostMisses {
        acquired := false;
        latched := true;
      }
    }

    method ClassifyAndUpdate(rawDetected: bool, rawInvalid: bool, stale: bool) returns (state: TargetState)
      modifies this
      ensures var r := Classified(old(Model()).tracker, config, KindOf(rawDetected, rawInvalid, stale));
        Model() == old(Model()).(tracker := r.0) && state == r.1
    {
      if stale {
        CountMiss();
        return STALE;
      }
      if rawInvalid {
        CountMiss();
        return INVALID;
      }
      if rawDetected {
        misses := 0;
        hits := (hits + 1) % WRAP;
        latched := false;
        if acquired || hits >= config.acquireHits {
          acquired := true;
          return DETECTED;
        }
        return CANDIDATE;
      }
      CountMiss();
      return if latched then LOST else NO_TARGET;
    }

    static method ControlErrorOf(p: Packet, state: TargetState) returns (error: TargetError)
      ensures error == MakeControlError(p, state)
    {
      error := p.error.(state := state, valid := state == DETECTED && p.error.valid);
      if !error.valid {
        error := error.(dx := 0.0, dy := 0.0, errorX := 0.0, errorY := 0.0);
      }
    }

    // `now` is the clock reading; the sinks are not part of this model.
    method Publish(p: Packet, now: int) returns (control: Control)
      requires AllCounted(Model().counts)
      modifies this
      ensures (Model(), control) == Published(old(Model()), config, p, now)
      ensures AllCounted(Model().counts)
    {
      var timestampValid := p.captureNs > 0 && now >= p.captureNs;
      var age := if timestampValid then now - p.captureNs else 0;
      var stale := timestampValid && age > config.maxAgeNs;
      processed := processed + 1;
      if !timestampValid {
        invalidTimestamps := invalidTimestamps + 1;
      }
      var state := ClassifyAndUpdate(RawDetected(p), RawInvalid(p) || !timestampValid, stale);
      latest := state;
      if maximumAgeNs < age {
        maximumAgeNs := age;
      }
      counts := counts[Index(state) := counts[Index(state)] + 1];
      var error := ControlErrorOf(p, state);
      control := Control(state, error.valid, Observation(state, state == DETECTED), error, age);
      if control.valid {
        validControls := validControls + 1;
      }
    }
  }

  // ---- whole runs of Publish ----

  datatype Input = Input(packet: Packet, now: int)

  function Runs(c: Config, inputs: seq<Input>): (m: Machine)
    ensures AllCounted(m.counts)
  {
    if inputs == [] then NEW_MACHINE
    else Published(Runs(c, inputs[..|inputs| - 1]), c, inputs[|inputs| - 1].packet, inputs[|inputs| - 1].now).0
  }

  function Kinds(c: Config, inputs: seq<Input>): (kinds: seq<Kind>)
    ensures |kinds| == |inputs|
  {
    if inputs == [] then []
    else Kinds(c, inputs[..|inputs| - 1]) + [PacketKind(c, inputs[|inputs| - 1].packet, inputs[|inputs| - 1].now)]
  }

  function Sum(counts: seq<nat>): nat
    requires AllCounted(counts)
  {
    counts[0] + counts[1] + counts[2] + counts[3] + counts[4] + counts[5]
  }

  // A control is valid exactly when its state is DETECTED; otherwise its error is zero.
  lemma ValidIffDetected(m: Machine, c: Config, p: Packet, now: int)
    requires AllCounted(m.counts)
    ensures var control := Published(m, c, p, now).1;
      && (control.valid <==> control.state == DETECTED)
      && (!control.valid ==> control.error.dx == 0.0 && control.error.dy == 0.0
                             && control.error.errorX == 0.0 && control.error.errorY == 0.0)
  {
  }

  lemma SumAdds(counts: seq<nat>, state: TargetState)
    requires AllCounted(counts)
    ensures AllCounted(counts[Index(state) := counts[Index(state)] + 1])
    ensures Sum(counts[Index(state) := counts[Index(state)] + 1]) == Sum(counts) + 1
  {
    match state {
      case NO_TARGET =>
      case CANDIDATE =>
      case DETECTED =>
      case LOST =>
      case INVALID =>
      case STALE =>
    }
  }

  ghost predicate Balanced(m: Machine, n: nat) {
    AllCounted(m.counts) && m.processed == n == Sum(m.counts) && m.validControls == m.counts[Index(DETECTED)]
  }

  lemma PublishedBalances(m: Machine, c: Config, p: Packet, now: int, n: nat)
    requires Balanced(m, n)
    ensures Balanced(Published(m, c, p, now).0, n + 1)
  {
    ValidIffDetected(m, c, p, now);
    SumAdds(m.counts, Classified(m.tracker, c, PacketKind(c, p, now)).1);
  }

  // Over any run the state counts add up to the processed packets, the valid controls
  // are the detections, and the tracker has seen exactly the kinds of those packets.
  lemma {:induction false} CountsAddUp(c: Config, inputs: seq<Input>)
    ensures Balanced(Runs(c, inputs), |inputs|)
    ensures Runs(c, inputs).tracker == Play(c, Kinds(c, inputs))
    decreases |inputs|
  {
    if inputs != [] {
      var front, last := inputs[..|inputs| - 1], inputs[|inputs| - 1];
      CountsAddUp(c, front);
      PublishedBalances(Runs(c, front), c, last.packet, last.now, |front|);
      assert Kinds(c, inputs)[..|inputs| - 1] == Kinds(c, front);
    }
  }

  // The state reported for the last packet is the one its history means.
  lemma LatestMeansHistory(c: Config, inputs: seq<Input>)
    requires Usable(c) && inputs != []
    ensures Runs(c, inputs).latest == Report(Kinds(c, inputs), c)
  {
    var front := inputs[..|inputs| - 1];
    CountsAddUp(c, front);
    assert Kinds(c, inputs)[..|inputs| - 1] == Kinds(c, front);
    TrackerMeansHistory(c, Kinds(c, inputs));
  }
}
