/** The capacity of a node's outbound buffer (outbound_buffer.rs). */
module OutboundBuffer {

  class OutboundBuffer {
    var available: nat

    constructor (capacity: nat)
      ensures available == capacity
    {
      available := capacity;
    }

    /** Takes `size` bytes if there are as many; otherwise nothing changes. */
    method Reserve(size: nat) returns (reserved: bool)
      modifies this
      ensures reserved <==> size <= old(available)
      ensures old(available) == available + if reserved then size else 0
    {
      if available < size {
        reserved := false;
      } else {
        available := available - size;
        reserved := true;
      }
    }

    method Release(size: nat)
      modifies this
      ensures available == old(available) + size
    {
      available := available + size;
    }
  }
}
