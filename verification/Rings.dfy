/**
 Circular storage with a fixed capacity. `BoundedQueue` and the completion list
 of the capture broker both keep their items in a vector of optional cells with
 a head index, a tail index and a size; the facts about that layout are here.
 */
module Rings {
  import opened Wrappers

  // BoundedQueue::Next and Core::NextCompletion.
  function Next(index: nat, capacity: nat): (next: nat)
    requires index < capacity
    ensures next < capacity
  {
    (index + 1) % capacity
  }

  // The cell that holds the item `offset` places behind the head.
  function At(head: nat, offset: nat, capacity: nat): (cell: nat)
    requires head < capacity && offset <= capacity
    ensures cell < capacity
  {
    if head + offset < capacity then head + offset else head + offset - capacity
  }

  // Cells hold values exactly on the live window.
  ghost predicate Shape<T>(cells: seq<Option<T>>, head: nat, tail: nat, size: nat) {
    && head < |cells|
    && size <= |cells|
    && tail == At(head, size, |cells|)
    && forall offset: nat :: offset < |cells| ==>
         (cells[At(head, offset, |cells|)].Some? <==> offset < size)
  }

  // The live items, oldest first.
  ghost function Window<T>(cells: seq<Option<T>>, head: nat, tail: nat, size: nat): (items: seq<T>)
    requires Shape(cells, head, tail, size)
    ensures |items| == size
  {
    seq(size, offset requires 0 <= offset < size => cells[At(head, offset, |cells|)].value)
  }

  lemma NextIsAt(index: nat, capacity: nat)
    requires index < capacity
    ensures Next(index, capacity) == At(index, 1, capacity)
  {
    if index + 1 < capacity {
      assert (index + 1) % capacity == index + 1;
    }
  }

  lemma Push<T>(cells: seq<Option<T>>, head: nat, tail: nat, size: nat, item: T)
    requires Shape(cells, head, tail, size) && size < |cells|
    ensures Shape(cells[tail := Some(item)], head, Next(tail, |cells|), size + 1)
    ensures Window(cells[tail := Some(item)], head, Next(tail, |cells|), size + 1)
         == Window(cells, head, tail, size) + [item]
  {
    NextIsAt(tail, |cells|);
    var after := cells[tail := Some(item)];
    forall offset: nat | offset < |cells|
      ensures after[At(head, offset, |cells|)].Some? <==> offset < size + 1
    {
      if offset != size {
        assert At(head, offset, |cells|) != tail;
      }
    }
  }

  lemma Pop<T>(cells: seq<Option<T>>, head: nat, tail: nat, size: nat)
    requires Shape(cells, head, tail, size) && size > 0
    ensures cells[head] == Some(Window(cells, head, tail, size)[0])
    ensures Shape(cells[head := None], Next(head, |cells|), tail, size - 1)
    ensures Window(cells[head := None], Next(head, |cells|), tail, size - 1)
         == Window(cells, head, tail, size)[1..]
  {
    NextIsAt(head, |cells|);
    var after, next := cells[head := None], Next(head, |cells|);
    assert cells[At(head, 0, |cells|)].Some?;
    forall offset: nat | offset < |cells|
      ensures after[At(next, offset, |cells|)].Some? <==> offset < size - 1
      ensures offset < size - 1 ==>
                after[At(next, offset, |cells|)] == cells[At(head, offset + 1, |cells|)]
    {
      if offset + 1 < |cells| {
        assert At(next, offset, |cells|) == At(head, offset + 1, |cells|) != head;
      } else {
        assert At(next, offset, |cells|) == head;
      }
    }
  }
}
