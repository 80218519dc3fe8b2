/**
 Tensor slots. Input slots circulate between the free queue, the preprocess
 thread, the prepared frames and the NPU thread; output slots between the free
 queue, the NPU thread, the completed frames and the postprocess thread.
 */
module PipelineSlots {
  import opened Wrappers
  import opened Pipelines
  import opened PipelineFrames
  import opened PipelineOwnership
  import opened PipelineFlags

  // One round: free queue, first holder, frame queue, second holder.
  datatype Round = Round(free: seq<nat>, first: Option<nat>, frames: seq<nat>, second: Option<nat>)

  function IsSlot(place: Option<nat>, slot: nat): nat {
    if place == Some(slot) then 1 else 0
  }

  function Held(place: Option<nat>): nat {
    if place.Some? then 1 else 0
  }

  function CopiesOf(r: Round, slot: nat): nat {
    multiset(r.free)[slot] + IsSlot(r.first, slot) + multiset(r.frames)[slot] + IsSlot(r.second, slot)
  }

  function Size(r: Round): nat {
    |r.free| + Held(r.first) + |r.frames| + Held(r.second)
  }

  // No slot is in two places; while nothing was lost each is in exactly one.
  ghost predicate Exclusive(r: Round, slots: nat, lossy: bool) {
    && (forall slot: nat :: CopiesOf(r, slot) <= if slot < slots then 1 else 0)
    && (!lossy ==> forall slot: nat :: CopiesOf(r, slot) == if slot < slots then 1 else 0)
    && Size(r) <= slots
    && (!lossy ==> Size(r) == slots)
  }

  function PreprocessSlot(pc: PreprocessPc): Option<nat> {
    match pc
    case PCaptured(slot) => Some(slot)
    case PWork(slot, _) => Some(slot)
    case PRelease(slot, _, _) => Some(slot)
    case PPush(slot) => Some(slot)
    case PReturn(slot, _) => Some(slot)
    case _ => None
  }

  function NpuInput(pc: NpuPc): Option<nat> {
    match pc
    case NOut(input) => Some(input)
    case NRun(input, _) => Some(input)
    case NReturnInput(input, _, _) => Some(input)
    case NAbandon(input) => Some(input)
    case _ => None
  }

  function NpuOutput(pc: NpuPc): Option<nat> {
    match pc
    case NRun(_, output) => Some(output)
    case NReturnInput(_, output, _) => Some(output)
    case NPush(output) => Some(output)
    case NProcess(output) => Some(output)
    case NReturnOutput(output, _) => Some(output)
    case _ => None
  }

  function PostOutput(pc: PostPc): Option<nat> {
    match pc
    case OProcess(output) => Some(output)
    case OReturn(output) => Some(output)
    case _ => None
  }

  function Inputs(s: State): Round {
    Round(s.freeIn.items, PreprocessSlot(s.pre), s.prepared.items, NpuInput(s.npu))
  }

  function Outputs(s: State): Round {
    Round(s.freeOut.items, NpuOutput(s.npu), s.completed.items, PostOutput(s.post))
  }

  // A fatal error is reported or about to be: an exception may have lost a slot.
  predicate Doomed(s: State) {
    s.fatal || s.pre.PThrow? || Failing(s)
  }

  // Inferences that succeeded and are on their way to ProcessCompletedFrame.
  function NpuInFlight(pc: NpuPc): nat {
    if (pc.NReturnInput? && pc.ok) || pc.NPush? || pc.NProcess? then 1 else 0
  }

  function PostInFlight(pc: PostPc): nat {
    if pc.OProcess? then 1 else 0
  }

  function InFlight(s: State): nat {
    |s.completed.items| + NpuInFlight(s.npu) + PostInFlight(s.post)
  }

  // Every success is processed or in flight, unless a failure lost it.
  predicate Accounted(successes: nat, processed: nat, inFlight: nat, lossy: bool) {
    processed + inFlight <= successes && (!lossy ==> successes == processed + inFlight)
  }

  predicate SuccessesOk(s: State) {
    Accounted(s.successes, s.processed, InFlight(s), s.fatal)
  }

  ghost predicate SlotsOk(c: Config, s: State) {
    && Exclusive(Inputs(s), c.inputs, Doomed(s))
    && Exclusive(Outputs(s), c.outputs, Doomed(s))
    && SuccessesOk(s)
  }

  // ----- moves of one slot -----

  ghost predicate Moved(r: Round, r': Round) {
    || r' == r
    || (r.free != [] && r.first.None? && r' == r.(free := r.free[1..], first := Some(r.free[0])))
    || (r.first.Some? && r' == r.(frames := r.frames + [r.first.value], first := None))
    || (r.frames != [] && r.second.None? && r' == r.(frames := r.frames[1..], second := Some(r.frames[0])))
    || (r.first.Some? && r' == r.(free := r.free + [r.first.value], first := None))
    || (r.second.Some? && r' == r.(free := r.free + [r.second.value], second := None))
  }

  // A thread let go of its slot without giving it back.
  ghost predicate Lost(r: Round, r': Round) {
    && r'.free == r.free && r'.frames == r.frames
    && (r'.first == r.first || r'.first == None)
    && (r'.second == r.second || r'.second == None)
  }

  lemma HeadCopies(items: seq<nat>, slot: nat)
    requires items != []
    ensures multiset(items)[slot] == multiset(items[1..])[slot] + IsSlot(Some(items[0]), slot)
  {
    assert items == [items[0]] + items[1..];
  }

  lemma LastCopies(items: seq<nat>, item: nat, slot: nat)
    ensures multiset(items + [item])[slot] == multiset(items)[slot] + IsSlot(Some(item), slot)
  {
  }

  lemma TakeCopies(r: Round, slot: nat)
    requires r.free != [] && r.first.None?
    ensures var r' := r.(free := r.free[1..], first := Some(r.free[0]));
      CopiesOf(r', slot) == CopiesOf(r, slot) && Size(r') == Size(r)
  {
    HeadCopies(r.free, slot);
  }

  lemma DequeueCopies(r: Round, slot: nat)
    requires r.frames != [] && r.second.None?
    ensures var r' := r.(frames := r.frames[1..], second := Some(r.frames[0]));
      CopiesOf(r', slot) == CopiesOf(r, slot) && Size(r') == Size(r)
  {
    HeadCopies(r.frames, slot);
  }

  lemma QueueCopies(r: Round, slot: nat)
    requires r.first.Some?
    ensures var r' := r.(frames := r.frames + [r.first.value], first := None);
      CopiesOf(r', slot) == CopiesOf(r, slot) && Size(r') == Size(r)
  {
    LastCopies(r.frames, r.first.value, slot);
  }

  lemma FreeFirstCopies(r: Round, slot: nat)
    requires r.first.Some?
    ensures var r' := r.(free := r.free + [r.first.value], first := None);
      CopiesOf(r', slot) == CopiesOf(r, slot) && Size(r') == Size(r)
  {
    LastCopies(r.free, r.first.value, slot);
  }

  lemma FreeSecondCopies(r: Round, slot: nat)
    requires r.second.Some?
    ensures var r' := r.(free := r.free + [r.second.value], second := None);
      CopiesOf(r', slot) == CopiesOf(r, slot) && Size(r') == Size(r)
  {
    LastCopies(r.free, r.second.value, slot);
  }

  lemma MovedCopies(r: Round, r': Round, slot: nat)
    requires Moved(r, r')
    ensures CopiesOf(r', slot) == CopiesOf(r, slot) && Size(r') == Size(r)
  {
    if r.free != [] && r.first.None? {
      TakeCopies(r, slot);
    }
    if r.frames != [] && r.second.None? {
      DequeueCopies(r, slot);
    }
    if r.first.Some? {
      QueueCopies(r, slot);
      FreeFirstCopies(r, slot);
    }
    if r.second.Some? {
      FreeSecondCopies(r, slot);
    }
  }

  lemma MoveKeepsExclusive(r: Round, r': Round, slots: nat, lossy: bool, lossy': bool)
    requires Exclusive(r, slots, lossy) && (lossy ==> lossy')
    requires Moved(r, r') || (lossy' && Lost(r, r'))
    ensures Exclusive(r', slots, lossy')
  {
    if Moved(r, r') {
      MovedCopies(r, r', 0);
      forall slot: nat ensures CopiesOf(r', slot) == CopiesOf(r, slot) {
        MovedCopies(r, r', slot);
      }
    } else {
      forall slot: nat ensures CopiesOf(r', slot) <= CopiesOf(r, slot) {
      }
    }
  }

  // ----- steps -----

  // A slot may move, or be lost by a thread that has failed.
  ghost predicate MovesOrDies(r: Round, r': Round, lossy': bool) {
    Moved(r, r') || (lossy' && Lost(r, r'))
  }

  // In each lemma below a slot that is given back always fits, because fewer
  // than all slots are in the free queue, unless a failure closed that queue.

  lemma PreprocessMovesInputs(v: PreprocessView, fatal: bool, e: Env, second: Option<nat>)
    requires var r := Round(v.freeIn.items, PreprocessSlot(v.pre), v.prepared.items, second);
             Size(r) <= v.freeIn.capacity
    requires !v.pre.PFail? && (v.freeIn.stopped ==> fatal)
    ensures var v' := PreprocessStep(v, fatal, e);
      MovesOrDies(Round(v.freeIn.items, PreprocessSlot(v.pre), v.prepared.items, second),
                  Round(v'.freeIn.items, PreprocessSlot(v'.pre), v'.prepared.items, second),
                  fatal || v'.pre.PThrow? || v'.pre.PFail?)
  {
  }

  lemma NpuMovesInputs(c: Config, v: NpuView, fatal: bool, e: Env, first: Option<nat>)
    requires var r := Round(v.freeIn.items, first, v.prepared.items, NpuInput(v.npu));
             Size(r) <= v.freeIn.capacity
    requires !v.npu.NFail? && (v.freeIn.stopped ==> fatal)
    ensures var v' := NpuStep(c, v, e);
      MovesOrDies(Round(v.freeIn.items, first, v.prepared.items, NpuInput(v.npu)),
                  Round(v'.freeIn.items, first, v'.prepared.items, NpuInput(v'.npu)),
                  fatal || v'.npu.NFail?)
  {
  }

  lemma NpuMovesOutputs(c: Config, v: NpuView, fatal: bool, e: Env, second: Option<nat>)
    requires var r := Round(v.freeOut.items, NpuOutput(v.npu), v.completed.items, second);
             Size(r) <= v.freeOut.capacity
    requires !v.npu.NFail? && (v.freeOut.stopped ==> fatal)
    ensures var v' := NpuStep(c, v, e);
      MovesOrDies(Round(v.freeOut.items, NpuOutput(v.npu), v.completed.items, second),
                  Round(v'.freeOut.items, NpuOutput(v'.npu), v'.completed.items, second),
                  fatal || v'.npu.NFail?)
  {
  }

  lemma PostMovesOutputs(v: PostView, fatal: bool, first: Option<nat>)
    requires var r := Round(v.freeOut.items, first, v.completed.items, PostOutput(v.post));
             Size(r) <= v.freeOut.capacity
    requires v.freeOut.stopped ==> fatal
    ensures var v' := PostStep(v);
      MovesOrDies(Round(v.freeOut.items, first, v.completed.items, PostOutput(v.post)),
                  Round(v'.freeOut.items, first, v'.completed.items, PostOutput(v'.post)), fatal)
  {
  }

  // The NPU thread counts a success when it takes one in hand, and loses it only
  // when a failure has closed the completed frames.
  lemma NpuKeepsSuccesses(c: Config, v: NpuView, fatal: bool, e: Env, post: nat)
    requires Accounted(v.successes, v.processed, |v.completed.items| + NpuInFlight(v.npu) + post, fatal)
    requires NpuReady(v) && NpuOk(c, v, fatal) && !v.npu.NFail? && (v.completed.stopped && v.npu.NPush? ==> fatal)
    ensures var v' := NpuStep(c, v, e);
      Accounted(v'.successes, v'.processed, |v'.completed.items| + NpuInFlight(v'.npu) + post, fatal)
  {
  }

  lemma PostKeepsSuccesses(v: PostView, successes: nat, fatal: bool, npu: nat)
    requires Accounted(successes, v.processed, |v.completed.items| + npu + PostInFlight(v.post), fatal)
    ensures var v' := PostStep(v);
      Accounted(successes, v'.processed, |v'.completed.items| + npu + PostInFlight(v'.post), fatal)
  {
  }

  // ----- the main result -----

  // Once doomed, always doomed.
  lemma DoomKept(c: Config, s: State, t: Thread, e: Env)
    requires 0 < s.captured.capacity && 0 < s.videoFrames.capacity
    requires FlagsOk(c, s) && Doomed(s)
    ensures Doomed(Next(c, s, t, e))
  {
    NextEvolves(c, s, t, e);
    if InFailure(t, s) {
      FailureAdvances(c, s, t);
    }
  }

  // A step that moves no slot.
  lemma SameKeepsSlots(c: Config, s: State, s': State)
    requires SlotsOk(c, s) && (Doomed(s) ==> Doomed(s')) && (s.fatal ==> s'.fatal)
    requires Lost(Inputs(s), Inputs(s')) && (Inputs(s') == Inputs(s) || Doomed(s'))
    requires Lost(Outputs(s), Outputs(s')) && (Outputs(s') == Outputs(s) || Doomed(s'))
    requires s'.successes == s.successes && s'.processed == s.processed
    requires InFlight(s') == InFlight(s)
    ensures SlotsOk(c, s')
  {
    MoveKeepsExclusive(Inputs(s), Inputs(s'), c.inputs, Doomed(s), Doomed(s'));
    MoveKeepsExclusive(Outputs(s), Outputs(s'), c.outputs, Doomed(s), Doomed(s'));
  }

  lemma PreprocessKeepsSlots(c: Config, s: State, e: Env)
    requires QueuesOk(c, s) && FlagsOk(c, s) && SlotsOk(c, s) && !s.pre.PFail?
    requires Doomed(s) ==> Doomed(PreprocessNext(s, e))
    ensures SlotsOk(c, PreprocessNext(s, e))
  {
    var s' := PreprocessNext(s, e);
    PreprocessMovesInputs(PreprocessOf(s), s.fatal, e, NpuInput(s.npu));
    MoveKeepsExclusive(Inputs(s), Inputs(s'), c.inputs, Doomed(s), Doomed(s'));
    MoveKeepsExclusive(Outputs(s), Outputs(s'), c.outputs, Doomed(s), Doomed(s'));
  }

  lemma NpuKeepsSlots(c: Config, s: State, e: Env)
    requires QueuesOk(c, s) && FlagsOk(c, s) && SlotsOk(c, s) && NpuReady(NpuOf(s)) && !s.npu.NFail?
    requires Doomed(s) ==> Doomed(NpuNext(c, s, e))
    ensures SlotsOk(c, NpuNext(c, s, e))
  {
    var s' := NpuNext(c, s, e);
    NpuMovesInputs(c, NpuOf(s), s.fatal, e, PreprocessSlot(s.pre));
    NpuMovesOutputs(c, NpuOf(s), s.fatal, e, PostOutput(s.post));
    NpuKeepsSuccesses(c, NpuOf(s), s.fatal, e, PostInFlight(s.post));
    MoveKeepsExclusive(Inputs(s), Inputs(s'), c.inputs, Doomed(s), Doomed(s'));
    MoveKeepsExclusive(Outputs(s), Outputs(s'), c.outputs, Doomed(s), Doomed(s'));
  }

  lemma PostKeepsSlots(c: Config, s: State)
    requires QueuesOk(c, s) && FlagsOk(c, s) && SlotsOk(c, s)
    ensures SlotsOk(c, PostNext(s))
  {
    var s' := PostNext(s);
    PostMovesOutputs(PostOf(s), s.fatal, NpuOutput(s.npu));
    PostKeepsSuccesses(PostOf(s), s.successes, s.fatal, NpuInFlight(s.npu));
    MoveKeepsExclusive(Inputs(s), Inputs(s'), c.inputs, Doomed(s), Doomed(s'));
    MoveKeepsExclusive(Outputs(s), Outputs(s'), c.outputs, Doomed(s), Doomed(s'));
  }

  lemma BystanderKeepsSlots(c: Config, s: State, t: Thread, s': State)
    requires SlotsOk(c, s) && Evolves(t, s, s') && (Doomed(s) ==> Doomed(s'))
    requires !(t.PreprocessThread? || t.NpuThread? || t.PostThread?)
    ensures SlotsOk(c, s')
  {
    SameKeepsSlots(c, s, s');
  }

  lemma FailureKeepsSlots(c: Config, s: State, t: Thread)
    requires SlotsOk(c, s) && InFailure(t, s) && (Doomed(s) ==> Doomed(FailureNext(c, s, t)))
    ensures SlotsOk(c, FailureNext(c, s, t))
  {
    FailStoreEvolves(s, StoresMade(t, s));
    SameKeepsSlots(c, s, FailureNext(c, s, t));
  }

  // Every step of every thread keeps the slots exclusive and the successes counted.
  lemma NextKeepsSlots(c: Config, s: State, t: Thread, e: Env)
    requires OwnershipOk(c, s) && FlagsOk(c, s) && SlotsOk(c, s) && Ready(s, t)
    ensures SlotsOk(c, Next(c, s, t, e))
  {
    if Doomed(s) {
      DoomKept(c, s, t, e);
    }
    if InFailure(t, s) {
      FailureKeepsSlots(c, s, t);
    } else {
      match t
      case PreprocessThread => PreprocessKeepsSlots(c, s, e);
      case NpuThread => NpuKeepsSlots(c, s, e);
      case PostThread => PostKeepsSlots(c, s);
      case _ =>
        NextEvolves(c, s, t, e);
        BystanderKeepsSlots(c, s, t, Next(c, s, t, e));
    }
  }

  lemma {:induction false} CountUp(n: nat, slot: nat)
    ensures multiset(seq(n, i => i))[slot] == if slot < n then 1 else 0
  {
    if n > 0 {
      CountUp(n - 1, slot);
      assert seq(n, i => i) == seq(n - 1, i => i) + [n - 1];
    }
  }

  lemma InitialSlots(c: Config, session: nat, headers: nat)
    ensures SlotsOk(c, Initial(c, session, headers))
  {
    var s := Initial(c, session, headers);
    forall slot: nat ensures CopiesOf(Inputs(s), slot) == if slot < c.inputs then 1 else 0 {
      CountUp(c.inputs, slot);
    }
    forall slot: nat ensures CopiesOf(Outputs(s), slot) == if slot < c.outputs then 1 else 0 {
      CountUp(c.outputs, slot);
    }
  }
}
