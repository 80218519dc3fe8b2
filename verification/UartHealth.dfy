/** The acknowledged-issue health record of the UART owner. */
module UartHealth {
  import opened Wrappers
  import UartSequences

  datatype Status = UNKNOWN | CONNECTING | HEALTHY | DEGRADED | UNHEALTHY

  datatype Reason =
    | initial | opening | negotiating | ready | response_timeout | link_lost | open_failed
    | hello_rejected | startup_not_ready | peer_reboot | recovered | owner_stopped

  datatype Sample = Sample(
    status: Status, reason: Reason, revision: nat, epoch: nat, boot: Option<UartSequences.uint32>)

  datatype Projection = Projection(current: Sample, pending: Option<Sample>)

  const INITIAL := Projection(Sample(UNKNOWN, initial, 0, 1, None), None)

  predicate Adverse(status: Status) {
    status == DEGRADED || status == UNHEALTHY
  }

  function Severity(status: Status): nat {
    if status == UNHEALTHY then 2 else 1
  }

  predicate Changes(p: Projection, status: Status, reason: Reason, boot: Option<UartSequences.uint32>,
                    newSession: bool)
  {
    status != p.current.status || reason != p.current.reason || boot != p.current.boot || newSession
  }

  // Keep the worst status and reason, but cover the newest adverse revision.
  function Covered(pending: Option<Sample>, current: Sample): Sample {
    if pending.None? || Severity(current.status) >= Severity(pending.value.status) then current
    else pending.value.(revision := current.revision, epoch := current.epoch, boot := current.boot)
  }

  function Recorded(p: Projection, status: Status, reason: Reason, boot: Option<UartSequences.uint32>,
                    newSession: bool): (r: Projection)
  {
    if !Changes(p, status, reason, boot, newSession) then p
    else
      var current := Sample(status, reason, p.current.revision + 1,
                            p.current.epoch + (if newSession then 1 else 0), boot);
      Projection(current, if Adverse(status) then Some(Covered(p.pending, current)) else p.pending)
  }

  function Acknowledged(p: Projection, revision: nat): Projection {
    if p.pending.Some? && p.pending.value.revision <= revision then p.(pending := None) else p
  }

  class UartHealthRecord {
    var projection: Projection

    constructor ()
      ensures projection == INITIAL
    {
      projection := INITIAL;
    }

    method Record(status: Status, reason: Reason, boot: Option<UartSequences.uint32>, newSession: bool)
      modifies this
      ensures projection == Recorded(old(projection), status, reason, boot, newSession)
    {
      var current := projection.current;
      var changed := status != current.status || reason != current.reason
                     || boot != current.boot || newSession;
      if !changed {
        return;
      }
      current := current.(revision := current.revision + 1);
      if newSession {
        current := current.(epoch := current.epoch + 1);
      }
      current := current.(status := status, reason := reason, boot := boot);
      projection := projection.(current := current);
      if status == DEGRADED || status == UNHEALTHY {
        var issue := projection.pending;
        if issue.None? || Severity(status) >= Severity(issue.value.status) {
          projection := projection.(pending := Some(current));
        } else {
          projection := projection.(pending := Some(issue.value.(
            revision := current.revision, epoch := current.epoch, boot := current.boot)));
        }
      }
    }

    method AckThrough(revision: nat)
      modifies this
      ensures projection == Acknowledged(old(projection), revision)
    {
      if projection.pending.Some? && projection.pending.value.revision <= revision {
        projection := projection.(pending := None);
      }
    }
  }

  // ---- whole runs ----

  datatype Event =
    | Record(status: Status, reason: Reason, boot: Option<UartSequences.uint32>, newSession: bool)
    | AckThrough(revision: nat)

  // What happened: the samples that changes produced, and the acknowledgements.
  datatype Entry = Changed(sample: Sample) | Acked(revision: nat)

  datatype History = History(projection: Projection, log: seq<Entry>)

  function Next(h: History, event: Event): History {
    match event
    case Record(status, reason, boot, newSession) =>
      var p := Recorded(h.projection, status, reason, boot, newSession);
      History(p, h.log + if Changes(h.projection, status, reason, boot, newSession)
                         then [Changed(p.current)] else [])
    case AckThrough(revision) =>
      History(Acknowledged(h.projection, revision), h.log + [Acked(revision)])
  }

  function Play(events: seq<Event>): History {
    if events == [] then History(INITIAL, [])
    else Next(Play(events[..|events| - 1]), events[|events| - 1])
  }

  predicate AdverseEntry(entry: Entry) {
    entry.Changed? && Adverse(entry.sample.status)
  }

  function After(open: seq<Sample>, entry: Entry): seq<Sample> {
    if AdverseEntry(entry) then open + [entry.sample]
    else if entry.Acked? && open != [] && open[|open| - 1].revision <= entry.revision then []
    else open
  }

  // The adverse samples since the pending issue was last cleared: an
  // acknowledgement clears them when it covers the newest one.
  function Open(log: seq<Entry>): (samples: seq<Sample>)
    ensures forall i :: 0 <= i < |samples| ==> Adverse(samples[i].status)
  {
    if log == [] then []
    else
      var before, entry := Open(log[..|log| - 1]), log[|log| - 1];
      After(before, entry)
  }

  ghost predicate Summarises(pending: Option<Sample>, samples: seq<Sample>) {
    if samples == [] then pending.None?
    else
      var newest := samples[|samples| - 1];
      && pending.Some?
      && pending.value.revision == newest.revision
      && pending.value.epoch == newest.epoch && pending.value.boot == newest.boot
      && (forall i :: 0 <= i < |samples| ==> Severity(samples[i].status) <= Severity(pending.value.status))
      && (exists i :: 0 <= i < |samples|
            && samples[i].status == pending.value.status && samples[i].reason == pending.value.reason)
  }

  // The samples carry the revisions 1, 2, 3, … in order of change.
  ghost predicate Ordered(h: History) {
    && (forall i, j :: 0 <= i < j < |h.log| && h.log[i].Changed? && h.log[j].Changed? ==>
          h.log[i].sample.revision < h.log[j].sample.revision)
    && (forall i :: 0 <= i < |h.log| && h.log[i].Changed? ==>
          h.log[i].sample.revision <= h.projection.current.revision)
  }

  lemma OpenSnoc(log: seq<Entry>, entry: Entry)
    ensures Open(log + [entry]) == After(Open(log), entry)
  {
    assert (log + [entry])[..|log|] == log;
  }

  lemma CoveredSummarises(pending: Option<Sample>, samples: seq<Sample>, current: Sample)
    requires Summarises(pending, samples) && Adverse(current.status)
    requires forall i :: 0 <= i < |samples| ==> Adverse(samples[i].status)
    ensures Summarises(Some(Covered(pending, current)), samples + [current])
  {
    var more, covered := samples + [current], Covered(pending, current);
    if covered == current {
      assert more[|samples|].status == covered.status && more[|samples|].reason == covered.reason;
    } else {
      var i :| 0 <= i < |samples|
            && samples[i].status == pending.value.status && samples[i].reason == pending.value.reason;
      assert more[i].status == covered.status && more[i].reason == covered.reason;
    }
  }

  // What a Record does to the pending issue and to the open samples.
  lemma RecordOpens(h: History, event: Event)
    requires event.Record?
    ensures var next := Next(h, event);
      if Changes(h.projection, event.status, event.reason, event.boot, event.newSession) && Adverse(event.status)
      then && next.projection.pending == Some(Covered(h.projection.pending, next.projection.current))
           && Open(next.log) == Open(h.log) + [next.projection.current]
           && next.projection.current.status == event.status
      else next.projection.pending == h.projection.pending && Open(next.log) == Open(h.log)
  {
    var current := Next(h, event).projection.current;
    OpenSnoc(h.log, Changed(current));
    assert h.log + [] == h.log;
  }

  lemma RecordSummarises(h: History, event: Event)
    requires Summarises(h.projection.pending, Open(h.log)) && event.Record?
    ensures Summarises(Next(h, event).projection.pending, Open(Next(h, event).log))
  {
    RecordOpens(h, event);
    var next := Next(h, event);
    if Changes(h.projection, event.status, event.reason, event.boot, event.newSession) && Adverse(event.status) {
      CoveredSummarises(h.projection.pending, Open(h.log), next.projection.current);
    }
  }

  lemma AckSummarises(h: History, event: Event)
    requires Summarises(h.projection.pending, Open(h.log)) && event.AckThrough?
    ensures Summarises(Next(h, event).projection.pending, Open(Next(h, event).log))
  {
    OpenSnoc(h.log, Acked(event.revision));
  }

  lemma NextOrdered(h: History, event: Event)
    requires Ordered(h)
    ensures Ordered(Next(h, event))
  {
    var next := Next(h, event);
    assert next.projection.current.revision
        == h.projection.current.revision + if |next.log| > |h.log| && next.log[|h.log|].Changed? then 1 else 0;
  }

  // Over any run: revisions increase with every change, and the pending issue is
  // the summary of the adverse samples that no acknowledgement has cleared: it is
  // there exactly when there are some, it covers the newest revision, and it has
  // the worst status of them.
  lemma {:induction false} PendingSummarises(events: seq<Event>)
    ensures Summarises(Play(events).projection.pending, Open(Play(events).log))
    ensures Ordered(Play(events))
    decreases |events|
  {
    if events != [] {
      PendingSummarises(events[..|events| - 1]);
      var h, event := Play(events[..|events| - 1]), events[|events| - 1];
      NextOrdered(h, event);
      match event {
        case Record(_, _, _, _) => RecordSummarises(h, event);
        case AckThrough(_) => AckSummarises(h, event);
      }
    }
  }

  // Samples are left over exactly when the newest adverse one was not acknowledged since.
  ghost predicate Unacknowledged(log: seq<Entry>) {
    exists i :: NewestAdverse(log, i)
      && forall j :: i < j < |log| && log[j].Acked? ==> log[j].revision < log[i].sample.revision
  }

  ghost predicate NewestAdverse(log: seq<Entry>, i: int) {
    && 0 <= i < |log| && AdverseEntry(log[i])
    && forall j :: i < j < |log| ==> !AdverseEntry(log[j])
  }

  lemma {:induction false} OpenMeansUnacknowledged(log: seq<Entry>)
    ensures Open(log) != [] <==> Unacknowledged(log)
    ensures Open(log) != [] ==> exists i :: NewestAdverse(log, i) && log[i].sample == Open(log)[|Open(log)| - 1]
    decreases |log|
  {
    if log != [] {
      var front, entry := log[..|log| - 1], log[|log| - 1];
      OpenMeansUnacknowledged(front);
      assert log == front + [entry];
      OpenSnoc(front, entry);
      if AdverseEntry(entry) {
        assert NewestAdverse(log, |log| - 1);
      } else {
        NewestKept(front, entry);
      }
    }
  }

  lemma NewestKept(front: seq<Entry>, entry: Entry)
    requires !AdverseEntry(entry)
    ensures forall i :: NewestAdverse(front + [entry], i) <==> NewestAdverse(front, i)
    ensures forall i, k :: NewestAdverse(front, i) && NewestAdverse(front, k) ==> i == k
  {
    var log := front + [entry];
    forall i ensures NewestAdverse(log, i) <==> NewestAdverse(front, i) {
      if NewestAdverse(log, i) {
        assert forall j :: 0 <= j < |front| ==> log[j] == front[j];
      }
      if NewestAdverse(front, i) {
        assert forall j :: 0 <= j < |front| ==> log[j] == front[j];
      }
    }
  }

  // The two together: the record shows an issue exactly when the newest adverse
  // revision has not been acknowledged since it was recorded.
  lemma PendingIffUnacknowledged(events: seq<Event>)
    ensures Play(events).projection.pending.Some? <==> Unacknowledged(Play(events).log)
  {
    PendingSummarises(events);
    OpenMeansUnacknowledged(Play(events).log);
  }
}
