/**
 * The buffered channel between probe cycles and the store worker, seen
 * sequentially: a FIFO of batches whose length never exceeds the capacity
 * it was made with.
 */
module Queue {
  import opened Wrappers
  import opened Points

  /** Capacity the channel is made with, and the limit the probe checks against. */
  const QueueCapacity: nat := 1000

  class DbQueue {
    const capacity: nat
    var items: seq<Batch>

    ghost predicate Valid()
      reads this
    {
      |items| <= capacity
    }

    /** `make(chan BatchPoints, capacity)`. */
    constructor (capacity: nat)
      ensures Valid() && this.capacity == capacity && items == []
    {
      this.capacity := capacity;
      items := [];
    }

    /** `len(dbqueue)`. */
    method Len() returns (n: nat)
      requires Valid()
      ensures n == |items| && n <= capacity
    {
      n := |items|;
    }

    /**
     * A send on the channel. On a full channel the send would block;
     * the only sender checks the length first, so it is never full here.
     */
    method Send(b: Batch)
      requires Valid() && |items| < capacity
      modifies this
      ensures Valid()
      ensures items == old(items) + [b]
    {
      items := items + [b];
    }

    /**
     * A receive from the channel: the oldest batch. An empty channel would
     * make the receiver wait; here it answers `None` and changes nothing.
     */
    method Receive() returns (b: Option<Batch>)
      requires Valid()
      modifies this
      ensures Valid()
      ensures old(items) == [] ==> b == None && items == []
      ensures old(items) != [] ==> b == Some(old(items)[0]) && items == old(items)[1..]
    {
      if items == [] {
        b := None;
      } else {
        b := Some(items[0]);
        items := items[1..];
      }
    }
  }
}
