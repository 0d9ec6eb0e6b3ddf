/** The bounded ring-buffer queue in which requests wait for a CPU. */
module BoundedQueues {
  import opened Basics

  /** Position `k` places after `head` on a ring of `n` slots. */
  function Slot(n: nat, head: nat, k: nat): (i: nat)
    requires head < n && k <= n
    ensures i < n
  {
    if head + k < n then head + k else head + k - n
  }

  lemma NextSlot(n: nat, i: nat)
    requires i < n
    ensures (i + 1) % n == Slot(n, i, 1)
  {
  }

  /** The `count` items that start at `head` on the ring, oldest first. */
  function Window<T>(ring: seq<T>, head: nat, count: nat): (s: seq<T>)
    requires count <= |ring| && (count > 0 ==> head < |ring|)
    ensures |s| == count
    ensures forall k | 0 <= k < count :: s[k] == ring[Slot(|ring|, head, k)]
  {
    seq(count, k requires 0 <= k < count => ring[Slot(|ring|, head, k)])
  }

  lemma WindowPush<T>(ring: seq<T>, head: nat, count: nat, x: T)
    requires count < |ring| && head < |ring|
    ensures Window(ring[Slot(|ring|, head, count) := x], head, count + 1) == Window(ring, head, count) + [x]
  {
  }

  lemma WindowPop<T>(ring: seq<T>, head: nat, count: nat)
    requires 0 < count <= |ring| && head < |ring|
    ensures Window(ring, head, count) == [ring[head]] + Window(ring, Slot(|ring|, head, 1), count - 1)
  {
    forall k | 0 < k < count
      ensures Slot(|ring|, head, k) == Slot(|ring|, Slot(|ring|, head, 1), k - 1)
    {
    }
  }

  class BoundedQueue<T(0)> {
    const capacity: nat
    const buf: array<T>
    var head: nat
    var tail: nat
    var count: nat
    var finalized: bool

    ghost predicate Valid()
      reads this
    {
      && buf.Length == capacity
      && count <= capacity
      && (capacity > 0 ==> head < capacity && tail == Slot(capacity, head, count))
    }

    /** The waiting items, oldest first. */
    ghost function Contents(): (s: seq<T>)
      requires Valid()
      reads this, buf
    {
      Window(buf[..], head, count)
    }

    constructor (capacity: nat)
      ensures Valid() && fresh(buf)
      ensures this.capacity == capacity
      ensures Contents() == [] && !finalized
    {
      this.capacity := capacity;
      buf := new T[capacity];
      head, tail, count, finalized := 0, 0, 0, false;
    }

    predicate Empty()
      reads this
    {
      count == 0
    }

    predicate Full()
      reads this
    {
      count >= capacity
    }

    method Push(item: T) returns (accepted: bool)
      requires Valid()
      modifies this`tail, this`count, buf
      ensures Valid()
      ensures accepted == (!finalized && |old(Contents())| < capacity)
      ensures Contents() == if accepted then old(Contents()) + [item] else old(Contents())
    {
      if finalized || count >= capacity {
        return false;
      }
      WindowPush(buf[..], head, count, item);
      NextSlot(capacity, tail);
      ghost var ring := buf[..];
      buf[tail] := item;
      assert buf[..] == ring[tail := item];
      tail := (tail + 1) % capacity;
      count := count + 1;
      return true;
    }

    method Pop() returns (item: Option<T>)
      requires Valid()
      modifies this`head, this`count
      ensures Valid()
      ensures old(Contents()) == [] ==> item == None && Contents() == []
      ensures old(Contents()) != [] ==>
                item == Some(old(Contents())[0]) && Contents() == old(Contents())[1..]
    {
      if count == 0 {
        return None;
      }
      WindowPop(buf[..], head, count);
      NextSlot(capacity, head);
      item := Some(buf[head]);
      head := (head + 1) % capacity;
      count := count - 1;
    }

    method Finalize()
      requires Valid()
      modifies this`finalized
      ensures Valid() && finalized
      ensures Contents() == old(Contents())
    {
      finalized := true;
    }
  }
}
