/** The fixed-capacity ring queue that connects the pipeline threads. */
module BoundedQueues {
  import opened Wrappers
  import Rings

  // What the queue means: its items oldest first, and its counters.
  datatype Queue<T> = Queue(
    items: seq<T>, capacity: nat, stopped: bool,
    pushed: nat, popped: nat, replaced: nat, highWatermark: nat)

  function Empty<T>(capacity: nat): Queue<T> {
    Queue([], capacity, false, 0, 0, 0, 0)
  }

  ghost predicate WellFormed<T>(q: Queue<T>) {
    && 0 < q.capacity
    && |q.items| <= q.highWatermark <= q.capacity
    && q.pushed == q.popped + q.replaced + |q.items|
  }

  function Max(a: nat, b: nat): nat {
    if a < b then b else a
  }

  function Appended<T>(q: Queue<T>, item: T): Queue<T> {
    q.(items := q.items + [item], pushed := q.pushed + 1,
       highWatermark := Max(q.highWatermark, |q.items| + 1))
  }

  // TryPush, and WaitPush once its wait is over.
  function Pushed<T>(q: Queue<T>, item: T): (r: (Queue<T>, bool)) {
    if q.stopped || |q.items| == q.capacity then (q, false) else (Appended(q, item), true)
  }

  // The item handed back is the evicted oldest one, or the rejected one.
  function PushedLatest<T>(q: Queue<T>, item: T): (r: (Queue<T>, bool, Option<T>))
    requires 0 < q.capacity
  {
    if q.stopped then (q, false, Some(item))
    else if |q.items| == q.capacity then
      (Appended(q.(items := q.items[1..], replaced := q.replaced + 1), item), true, Some(q.items[0]))
    else (Appended(q, item), true, None)
  }

  // TryPop, and WaitPop once its wait is over.
  function Popped<T>(q: Queue<T>): (r: (Queue<T>, Option<T>)) {
    if q.items == [] then (q, None)
    else (q.(items := q.items[1..], popped := q.popped + 1), Some(q.items[0]))
  }

  function Stopped<T>(q: Queue<T>): Queue<T> {
    q.(stopped := true)
  }

  // The predicates on which WaitPush and WaitPop block.
  predicate CanWaitPush<T>(q: Queue<T>) {
    q.stopped || |q.items| < q.capacity
  }

  predicate CanWaitPop<T>(q: Queue<T>) {
    q.stopped || |q.items| > 0
  }

  // One critical section of any thread.
  datatype Op<T> = TryPushOp(item: T) | PushLatestOp(item: T) | TryPopOp | StopOp

  // What a critical section took in and what it gave out.
  datatype Outcome<T> = Outcome(queue: Queue<T>, accepted: seq<T>, left: seq<T>)

  function Execute<T>(q: Queue<T>, op: Op<T>): Outcome<T>
    requires 0 < q.capacity
  {
    match op
    case TryPushOp(item) =>
      var (after, ok) := Pushed(q, item);
      Outcome(after, if ok then [item] else [], [])
    case PushLatestOp(item) =>
      var (after, ok, out) := PushedLatest(q, item);
      Outcome(after, if ok then [item] else [], if ok && out.Some? then [out.value] else [])
    case TryPopOp =>
      var (after, out) := Popped(q);
      Outcome(after, [], if out.Some? then [out.value] else [])
    case StopOp => Outcome(Stopped(q), [], [])
  }

  function Run<T>(q: Queue<T>, ops: seq<Op<T>>): (r: Outcome<T>)
    requires 0 < q.capacity
    ensures r.queue.capacity == q.capacity
    decreases |ops|
  {
    if ops == [] then Outcome(q, [], [])
    else
      var first := Execute(q, ops[0]);
      var rest := Run(first.queue, ops[1..]);
      Outcome(rest.queue, first.accepted + rest.accepted, first.left + rest.left)
  }

  lemma ExecuteKeepsOrder<T>(q: Queue<T>, op: Op<T>)
    requires WellFormed(q)
    ensures WellFormed(Execute(q, op).queue)
    ensures q.items + Execute(q, op).accepted == Execute(q, op).left + Execute(q, op).queue.items
  {
  }

  lemma Regroup<T>(q: seq<T>, a: seq<T>, l: seq<T>, q': seq<T>, a': seq<T>, l': seq<T>, q'': seq<T>)
    requires q + a == l + q' && q' + a' == l' + q''
    ensures q + (a + a') == (l + l') + q''
  {
    assert q + (a + a') == (q + a) + a' == l + (q' + a') == l + (l' + q'') == (l + l') + q'';
  }

  // Whatever threads interleave: the items that left the queue, by a pop or by
  // an eviction, followed by those still inside, are the accepted items in order.
  lemma {:induction false} FirstInFirstOut<T>(q: Queue<T>, ops: seq<Op<T>>)
    requires WellFormed(q)
    ensures WellFormed(Run(q, ops).queue)
    ensures q.items + Run(q, ops).accepted == Run(q, ops).left + Run(q, ops).queue.items
    decreases |ops|
  {
    if ops != [] {
      var first := Execute(q, ops[0]);
      ExecuteKeepsOrder(q, ops[0]);
      FirstInFirstOut(first.queue, ops[1..]);
      var rest := Run(first.queue, ops[1..]);
      Regroup(q.items, first.accepted, first.left, first.queue.items,
              rest.accepted, rest.left, rest.queue.items);
    }
  }

  // The counters are the lengths of those two histories.
  lemma {:induction false} CountersCount<T>(q: Queue<T>, ops: seq<Op<T>>)
    requires WellFormed(q)
    ensures Run(q, ops).queue.pushed == q.pushed + |Run(q, ops).accepted|
    ensures Run(q, ops).queue.popped + Run(q, ops).queue.replaced
         == q.popped + q.replaced + |Run(q, ops).left|
    decreases |ops|
  {
    if ops != [] {
      ExecuteKeepsOrder(q, ops[0]);
      CountersCount(Execute(q, ops[0]).queue, ops[1..]);
    }
  }

  // After Stop only draining changes the queue.
  lemma {:induction false} StoppedOnlyDrains<T>(q: Queue<T>, ops: seq<Op<T>>)
    requires WellFormed(q) && q.stopped
    ensures Run(q, ops).accepted == [] && Run(q, ops).queue.stopped
    ensures Run(q, ops).left + Run(q, ops).queue.items == q.items
    ensures Run(q, ops).queue.pushed == q.pushed && Run(q, ops).queue.replaced == q.replaced
    decreases |ops|
  {
    if ops != [] {
      var first := Execute(q, ops[0]);
      ExecuteKeepsOrder(q, ops[0]);
      StoppedOnlyDrains(first.queue, ops[1..]);
      var rest := Run(first.queue, ops[1..]);
      Regroup(q.items, [], first.left, first.queue.items, [], rest.left, rest.queue.items);
    }
  }

  class BoundedQueue<T> {
    const slots: array<Option<T>>
    var head: nat
    var tail: nat
    var size: nat
    var highWatermark: nat
    var pushed: nat
    var popped: nat
    var replacedOldest: nat
    var stopped: bool

    ghost predicate Valid()
      reads this, slots
    {
      && Rings.Shape(slots[..], head, tail, size)
      && WellFormed(Model())
    }

    ghost function Model(): Queue<T>
      requires Rings.Shape(slots[..], head, tail, size)
      reads this, slots
    {
      Queue(Rings.Window(slots[..], head, tail, size), slots.Length, stopped,
            pushed, popped, replacedOldest, highWatermark)
    }

    constructor (capacity: nat)
      requires 0 < capacity // BoundedQueue rejects a capacity of zero
      ensures Valid() && fresh(slots) && Model() == Empty(capacity)
    {
      slots := new Option<T>[capacity](_ => None);
      head, tail, size, highWatermark := 0, 0, 0, 0;
      pushed, popped, replacedOldest, stopped := 0, 0, 0, false;
    }

    method PushUnlocked(value: T)
      requires Valid() && size < slots.Length
      modifies this, slots
      ensures Valid() && Model() == Appended(old(Model()), value)
    {
      Rings.Push(slots[..], head, tail, size, value);
      slots[tail] := Some(value);
      tail := Rings.Next(tail, slots.Length);
      size := size + 1;
      pushed := pushed + 1;
      highWatermark := Max(highWatermark, size);
    }

    method PopUnlocked() returns (value: T)
      requires Valid() && size > 0
      modifies this, slots
      ensures Valid()
      ensures (Model(), Some(value)) == Popped(old(Model()))
    {
      Rings.Pop(slots[..], head, tail, size);
      value := slots[head].value;
      slots[head] := None;
      head := Rings.Next(head, slots.Length);
      size := size - 1;
      popped := popped + 1;
    }

    method TryPush(value: T) returns (ok: bool)
      requires Valid()
      modifies this, slots
      ensures Valid() && (Model(), ok) == Pushed(old(Model()), value)
    {
      if stopped || size == slots.Length {
        return false;
      }
      PushUnlocked(value);
      return true;
    }

    // The body after the wait; the wait itself is the guard.
    method WaitPush(value: T) returns (ok: bool)
      requires Valid() && CanWaitPush(Model())
      modifies this, slots
      ensures Valid() && (Model(), ok) == Pushed(old(Model()), value)
      ensures !ok ==> old(stopped)
    {
      if stopped {
        return false;
      }
      PushUnlocked(value);
      return true;
    }

    method PushLatest(value: T) returns (ok: bool, evicted: Option<T>)
      requires Valid()
      modifies this, slots
      ensures Valid() && (Model(), ok, evicted) == PushedLatest(old(Model()), value)
    {
      evicted := None;
      if stopped {
        return false, Some(value);
      }
      if size == slots.Length {
        Rings.Pop(slots[..], head, tail, size);
        evicted := slots[head];
        slots[head] := None;
        head := Rings.Next(head, slots.Length);
        size := size - 1;
        replacedOldest := replacedOldest + 1;
      }
      PushUnlocked(value);
      ok := true;
    }

    method TryPop() returns (value: Option<T>)
      requires Valid()
      modifies this, slots
      ensures Valid() && (Model(), value) == Popped(old(Model()))
    {
      if size == 0 {
        return None;
      }
      var item := PopUnlocked();
      value := Some(item);
    }

    // The body after the wait; the wait itself is the guard.
    method WaitPop() returns (value: Option<T>)
      requires Valid() && CanWaitPop(Model())
      modifies this, slots
      ensures Valid() && (Model(), value) == Popped(old(Model()))
      ensures value.None? ==> old(stopped) && old(Model()).items == []
    {
      if size == 0 {
        return None;
      }
      var item := PopUnlocked();
      value := Some(item);
    }

    method Stop()
      requires Valid()
      modifies this`stopped
      ensures Valid() && Model() == Stopped(old(Model()))
    {
      stopped := true;
    }
  }
}
