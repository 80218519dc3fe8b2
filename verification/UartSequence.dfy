/** Serial-number comparison and the tracker of received wire sequence numbers. */
module UartSequences {
  const MODULUS := 0x1_0000_0000
  const HALF := 0x8000_0000

  type uint32 = x: int | 0 <= x < MODULUS

  // Unsigned 32-bit subtraction.
  function Delta(candidate: uint32, reference: uint32): uint32 {
    (candidate - reference) % MODULUS
  }

  predicate SequenceIsNewer(candidate: uint32, reference: uint32) {
    var delta := Delta(candidate, reference);
    delta != 0 && delta < HALF
  }

  datatype Relation = FIRST | DUPLICATE | NEWER_CONTIGUOUS | NEWER_GAP | OLDER

  datatype Tracker = Tracker(hasBaseline: bool, bootId: uint32, lastSequence: uint32, gapCount: nat)

  const NO_BASELINE := Tracker(false, 0, 0, 0)

  function Observed(t: Tracker, bootId: uint32, sequence: uint32): (r: (Tracker, Relation)) {
    if !t.hasBaseline || bootId != t.bootId then
      (t.(hasBaseline := true, bootId := bootId, lastSequence := sequence), FIRST)
    else if sequence == t.lastSequence then (t, DUPLICATE)
    else if !SequenceIsNewer(sequence, t.lastSequence) then (t, OLDER)
    else
      var delta := Delta(sequence, t.lastSequence);
      var moved := t.(lastSequence := sequence);
      if delta == 1 then (moved, NEWER_CONTIGUOUS)
      else (moved.(gapCount := t.gapCount + (delta - 1)), NEWER_GAP)
  }

  class SequenceTracker {
    var hasBaseline: bool
    var bootId: uint32
    var lastSequence: uint32
    var gapCount: nat

    ghost function Model(): Tracker
      reads this
    {
      Tracker(hasBaseline, bootId, lastSequence, gapCount)
    }

    constructor ()
      ensures Model() == NO_BASELINE
    {
      hasBaseline, bootId, lastSequence, gapCount := false, 0, 0, 0;
    }

    method Observe(senderBootId: uint32, wireSequence: uint32) returns (relation: Relation)
      modifies this
      ensures (Model(), relation) == Observed(old(Model()), senderBootId, wireSequence)
    {
      if !hasBaseline || senderBootId != bootId {
        hasBaseline, bootId, lastSequence := true, senderBootId, wireSequence;
        return FIRST;
      }
      if wireSequence == lastSequence {
        return DUPLICATE;
      }
      if !SequenceIsNewer(wireSequence, lastSequence) {
        return OLDER;
      }
      var delta := Delta(wireSequence, lastSequence);
      lastSequence := wireSequence;
      if delta == 1 {
        return NEWER_CONTIGUOUS;
      }
      gapCount := gapCount + (delta - 1);
      return NEWER_GAP;
    }

    method Reset()
      modifies this
      ensures Model() == NO_BASELINE
    {
      hasBaseline, bootId, lastSequence, gapCount := false, 0, 0, 0;
    }
  }

  // ---- the comparison ----

  // Section 3.2 of RFC 1982: of two numbers one is newer, unless they are equal
  // or exactly half the number space apart.
  lemma NewerIsSerialOrder(a: uint32, b: uint32)
    ensures !(SequenceIsNewer(a, b) && SequenceIsNewer(b, a))
    ensures SequenceIsNewer(a, b) || SequenceIsNewer(b, a) <==> a != b && Delta(a, b) != HALF
  {
    assert a >= b ==> Delta(a, b) == a - b && (a > b ==> Delta(b, a) == b - a + MODULUS);
    assert a < b ==> Delta(a, b) == a - b + MODULUS && Delta(b, a) == b - a;
  }

  // Adding fewer than half the number space always gives a newer number.
  lemma AdvanceIsNewer(position: nat, advance: nat)
    ensures SequenceIsNewer((position + advance) % MODULUS, position % MODULUS)
       <==> advance % MODULUS != 0 && advance % MODULUS < HALF
  {
    ModDifference(position + advance, position);
  }

  lemma ModDifference(a: nat, b: nat)
    ensures (a % MODULUS - b % MODULUS) % MODULUS == (a - b) % MODULUS
  {
    var i, j := a / MODULUS, b / MODULUS;
    assert a - b == (a % MODULUS - b % MODULUS) + MODULUS * (i - j);
    ModShift(a % MODULUS - b % MODULUS, i - j);
  }

  lemma ModShift(x: int, k: int)
    ensures (x + MODULUS * k) % MODULUS == x % MODULUS
  {
  }

  // ---- the tracker over whole runs ----

  datatype Observation = Observation(bootId: uint32, sequence: uint32)

  // The least position after `position` that has this sequence number.
  function Above(position: nat, sequence: uint32): (r: nat)
    ensures r > position
    ensures r % MODULUS == sequence
    ensures forall p :: position < p < r ==> p % MODULUS != sequence
  {
    var r := position + 1 + (sequence - position - 1) % MODULUS;
    AboveIs(position, sequence, r);
    r
  }

  lemma AboveIs(position: nat, sequence: uint32, r: nat)
    requires r == position + 1 + (sequence - position - 1) % MODULUS
    ensures r % MODULUS == sequence
    ensures forall p :: position < p < r ==> p % MODULUS != sequence
  {
    forall p | position < p < r ensures p % MODULUS != sequence {
      ModDifference(p, position + 1);
      ModDifference(sequence, position + 1);
    }
  }

  // The positions of the numbers accepted from the current boot, wraps undone; how
  // many numbers were accepted as newer; how far all of them advanced together.
  datatype Log = Log(epoch: seq<nat>, newer: nat, advance: nat)

  function Noted(log: Log, relation: Relation, sequence: uint32): Log {
    match relation
    case FIRST => log.(epoch := [sequence])
    case DUPLICATE => log
    case OLDER => log
    case NEWER_CONTIGUOUS => Advanced(log, sequence)
    case NEWER_GAP => Advanced(log, sequence)
  }

  function Advanced(log: Log, sequence: uint32): Log {
    if log.epoch == [] then log
    else
      var last := log.epoch[|log.epoch| - 1];
      Log(log.epoch + [Above(last, sequence)], log.newer + 1, log.advance + (Above(last, sequence) - last))
  }

  datatype History = History(tracker: Tracker, log: Log)

  function Extended(h: History, o: Observation): History {
    var (tracker, relation) := Observed(h.tracker, o.bootId, o.sequence);
    History(tracker, Noted(h.log, relation, o.sequence))
  }

  function Play(observations: seq<Observation>): History {
    if observations == [] then History(NO_BASELINE, Log([], 0, 0))
    else Extended(Play(observations[..|observations| - 1]), observations[|observations| - 1])
  }

  ghost predicate Unwrapped(h: History) {
    && (h.tracker.hasBaseline <==> h.log.epoch != [])
    && (h.log.epoch != [] ==> h.log.epoch[|h.log.epoch| - 1] % MODULUS == h.tracker.lastSequence)
    && (forall i :: 0 < i < |h.log.epoch| ==> h.log.epoch[i - 1] < h.log.epoch[i] < h.log.epoch[i - 1] + HALF)
    && h.log.advance == h.log.newer + h.tracker.gapCount
  }

  lemma AboveIsDelta(position: nat, sequence: uint32)
    requires sequence != position % MODULUS
    ensures Above(position, sequence) == position + Delta(sequence, position % MODULUS)
  {
    ModDifference(sequence, position);
    NonZero(sequence, position % MODULUS);
    MinusOne(sequence - position);
  }

  lemma NonZero(a: uint32, b: uint32)
    requires a != b
    ensures Delta(a, b) != 0
  {
  }

  lemma MinusOne(x: int)
    requires x % MODULUS != 0
    ensures (x - 1) % MODULUS == x % MODULUS - 1
  {
  }

  lemma ExtendedUnwraps(h: History, o: Observation)
    requires Unwrapped(h)
    ensures Unwrapped(Extended(h, o))
    ensures Extended(h, o).tracker.hasBaseline
  {
    match Observed(h.tracker, o.bootId, o.sequence).1 {
      case FIRST =>
      case DUPLICATE =>
      case OLDER =>
      case NEWER_CONTIGUOUS => AboveIsDelta(h.log.epoch[|h.log.epoch| - 1], o.sequence);
      case NEWER_GAP => AboveIsDelta(h.log.epoch[|h.log.epoch| - 1], o.sequence);
    }
  }

  // Accepted numbers strictly advance, by less than half the number space each
  // time, across any number of wraps; the whole advance is the number of newer
  // ones plus the counted gaps, over all boots.
  lemma {:induction false} TrackerUnwraps(observations: seq<Observation>)
    ensures Unwrapped(Play(observations))
    ensures Play(observations).tracker.hasBaseline <==> observations != []
    decreases |observations|
  {
    if observations != [] {
      TrackerUnwraps(observations[..|observations| - 1]);
      ExtendedUnwraps(Play(observations[..|observations| - 1]), observations[|observations| - 1]);
    }
  }

  ghost predicate FromBaseline(h: History, first: Observation) {
    && h.tracker.hasBaseline && h.tracker.bootId == first.bootId
    && |h.log.epoch| == h.log.newer + 1
    && h.log.epoch[0] == first.sequence
    && h.log.epoch[|h.log.epoch| - 1] == first.sequence + h.log.newer + h.tracker.gapCount
  }

  lemma ExtendedFromBaseline(h: History, o: Observation, first: Observation)
    requires Unwrapped(h) && FromBaseline(h, first) && o.bootId == first.bootId
    ensures FromBaseline(Extended(h, o), first)
  {
    match Observed(h.tracker, o.bootId, o.sequence).1 {
      case DUPLICATE =>
      case OLDER =>
      case NEWER_CONTIGUOUS => AboveIsDelta(h.log.epoch[|h.log.epoch| - 1], o.sequence);
      case NEWER_GAP => AboveIsDelta(h.log.epoch[|h.log.epoch| - 1], o.sequence);
    }
  }

  // For one boot id the advance is measured from the first number.
  lemma {:induction false} OneBootAdvance(observations: seq<Observation>)
    requires observations != []
    requires forall i :: 0 <= i < |observations| ==> observations[i].bootId == observations[0].bootId
    ensures FromBaseline(Play(observations), observations[0])
    decreases |observations|
  {
    var front, last := observations[..|observations| - 1], observations[|observations| - 1];
    if front == [] {
      assert Play(front) == History(NO_BASELINE, Log([], 0, 0));
    } else {
      OneBootAdvance(front);
      TrackerUnwraps(front);
      ExtendedFromBaseline(Play(front), last, observations[0]);
    }
  }

  // A duplicate or an older number changes nothing, and nothing else is ignored.
  lemma IgnoredChangesNothing(t: Tracker, bootId: uint32, sequence: uint32)
    ensures var (after, relation) := Observed(t, bootId, sequence);
            after == t <==> relation.DUPLICATE? || relation.OLDER?
  {
  }
}
