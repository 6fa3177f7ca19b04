/** The wake handle: a non-blocking self-pipe whose readability tells R's event loop that events are
    queued. Only the number of buffered bytes matters; a full pipe drops the signal. */
module Wake {

  /** Bytes buffered after one signal on a pipe holding `bytes` of at most `capacity`. */
  function Signal(capacity: nat, bytes: nat): (r: nat)
    ensures bytes <= r
    ensures bytes <= capacity ==> r <= capacity
    ensures capacity >= 1 ==> r > 0
  {
    if bytes < capacity then bytes + 1 else bytes
  }

  class WakeHandle {
    const capacity: nat
    var bytes: nat

    ghost predicate Valid()
      reads this
    {
      1 <= capacity && bytes <= capacity
    }

    constructor (capacity: nat)
      requires 1 <= capacity
      ensures Valid() && this.capacity == capacity && bytes == 0
    {
      this.capacity := capacity;
      this.bytes := 0;
    }

    /** A write of one byte; on a full pipe the write fails and the byte is dropped. */
    method SignalOnce()
      requires Valid()
      modifies this
      ensures Valid() && bytes == Signal(capacity, old(bytes))
    {
      if bytes < capacity {
        bytes := bytes + 1;
      }
    }

    /** Reads up to 256 bytes at a time until a read returns nothing. */
    method Drain()
      requires Valid()
      modifies this
      ensures Valid() && bytes == 0
    {
      var got := ReadChunk();
      while got > 0
        invariant Valid()
        invariant got == 0 ==> bytes == 0
        decreases bytes + got
      {
        got := ReadChunk();
      }
    }

    /** One read(2) with a 256-byte buffer. */
    method ReadChunk() returns (got: nat)
      requires Valid()
      modifies this
      ensures Valid() && got <= 256 && bytes + got == old(bytes)
      ensures got == 0 <==> old(bytes) == 0
    {
      got := if bytes < 256 then bytes else 256;
      bytes := bytes - got;
    }
  }
}
