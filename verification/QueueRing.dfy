/** The ring buffer of a message queue is a bounded FIFO sequence. */
module QueueRing {
  import opened KernelState
  import opened KernelObjects
  import opened Invariants

  /** Where the i-th message from the head is stored. */
  function SlotOf(q: Queue, i: nat): nat
    requires q.capacity > 0
  {
    (q.head + i) % q.capacity
  }

  /** The messages in the order they will be received. */
  function Contents(q: Queue): (c: seq<Message>)
    requires q.capacity > 0 && |q.buffer| == q.capacity
    ensures |c| == q.count
  {
    seq(q.count, i requires 0 <= i < q.count => q.buffer[SlotOf(q, i)])
  }

  /** The messages that will be received next, at most n of them. */
  function Oldest(q: Queue, n: nat): seq<Message>
    requires q.capacity > 0 && |q.buffer| == q.capacity
  {
    Contents(q)[..if q.count < n then q.count else n]
  }

  lemma Wrap(a: nat, c: nat)
    requires a < 2 * c
    ensures a % c == if a < c then a else a - c
  {
    if a >= c {
      assert a == 1 * c + (a - c);
      ModOfSum(a - c, c);
    }
  }

  lemma ModOfSum(r: nat, c: nat)
    requires r < c
    ensures (c + r) % c == r
  {
    var k := (c + r) / c;
    assert k * c + (c + r) % c == c + r;
    assert k > 1 ==> k * c >= 2 * c;
    assert k < 1 ==> k * c <= 0;
  }

  lemma SlotsDiffer(q: Queue, i: nat, j: nat)
    requires q.capacity > 0 && q.head < q.capacity && i < j < q.capacity
    ensures SlotOf(q, i) != SlotOf(q, j)
  {
    Wrap(q.head + i, q.capacity);
    Wrap(q.head + j, q.capacity);
  }

  /** Writing at the tail appends. */
  lemma PutAppends(q: Queue, item: Message)
    requires q.used && QueueFits(q) && q.count < q.capacity
    ensures QueueFits(RingPut(q, item)) && Contents(RingPut(q, item)) == Contents(q) + [item]
  {
    var r := RingPut(q, item);
    Wrap(q.head + q.count, q.capacity);
    Wrap(q.tail + 1, q.capacity);
    Wrap(q.head + q.count + 1, q.capacity);
    forall i | 0 <= i < r.count ensures Contents(r)[i] == (Contents(q) + [item])[i] {
      if i < q.count {
        SlotsDiffer(q, i, q.count);
      }
    }
  }

  /** Advancing the head removes the oldest message. */
  lemma DropRemoves(q: Queue)
    requires q.used && QueueFits(q) && q.count > 0
    ensures QueueFits(RingDrop(q)) && Contents(q) == [q.buffer[q.head]] + Contents(RingDrop(q))
  {
    var r := RingDrop(q);
    Wrap(q.head + 1, q.capacity);
    Wrap(q.head + q.count, q.capacity);
    Wrap(r.head + r.count, q.capacity);
    forall i | 0 <= i < q.count ensures Contents(q)[i] == ([q.buffer[q.head]] + Contents(r))[i] {
      Wrap(q.head + i, q.capacity);
      if i > 0 {
        Wrap(r.head + (i - 1), q.capacity);
        assert SlotOf(r, i - 1) == SlotOf(q, i);
      }
    }
  }
}
