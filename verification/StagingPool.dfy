/** The pool of staging slots (py_kvcache/staging.py): a free list popped and pushed at its end. */
module StagingPool {
  import opened Outcomes
  import opened OrderedKeys

  class Pool {
    const slotCount: nat
    var free: seq<int>
    var closed: bool

    constructor (slotCount: nat)
      requires slotCount > 0
      ensures this.slotCount == slotCount && !closed
      ensures free == seq(slotCount, i => i)
    {
      this.slotCount := slotCount;
      free := seq(slotCount, i => i);
      closed := false;
    }

    /** A pool needs at least one slot. */
    static method Make(slotCount: int) returns (r: Result<Pool>)
      ensures r.Ok? <==> slotCount > 0
      ensures r.Ok? ==> fresh(r.value) && r.value.slotCount == slotCount && !r.value.closed
      ensures r.Ok? ==> r.value.free == seq(slotCount, i => i)
    {
      if slotCount <= 0 {
        return Err("slot_count must be positive");
      }
      var pool := new Pool(slotCount);
      r := Ok(pool);
    }

    /** Takes the most recently freed slot; fails when the pool is closed, yields nothing when it is empty. */
    method TryReserve() returns (r: Result<Option<int>>)
      modifies this`free
      ensures r.Err? <==> closed
      ensures r.Err? || old(free) == [] ==> free == old(free)
      ensures r.Ok? && old(free) == [] ==> r.value == None
      ensures r.Ok? && old(free) != [] ==> r.value.Some? && old(free) == free + [r.value.value]
    {
      if closed {
        return Err("staging pool is closed");
      }
      if free == [] {
        return Ok(None);
      }
      var index := free[|free| - 1];
      free := free[..|free| - 1];
      r := Ok(Some(index));
    }

    /** Returns a slot; ignored once the pool is closed, refused for an index that is not a slot. */
    method Release(slotIndex: int) returns (r: Result<()>)
      modifies this`free
      ensures r.Err? <==> !closed && !(0 <= slotIndex < slotCount)
      ensures free == if r.Ok? && !closed then old(free) + [slotIndex] else old(free)
    {
      if closed {
        return Ok(());
      }
      if slotIndex < 0 || slotIndex >= slotCount {
        return Err("invalid staging slot index");
      }
      free := free + [slotIndex];
      r := Ok(());
    }

    method Close()
      modifies this
      ensures closed && free == if old(closed) then old(free) else []
    {
      if closed {
        return;
      }
      closed := true;
      free := [];
    }
  }

  /** Slots bought by `stagingBytes` of memory, but never fewer than `minSlots` or one. */
  function ComputeSlotCount(stagingBytes: nat, ioSize: nat, minSlots: int): (n: nat)
    requires ioSize > 0
    ensures n >= 1 && n >= minSlots
    ensures n * ioSize <= stagingBytes || n == 1 || n == minSlots
    ensures stagingBytes < (n + 1) * ioSize
  {
    var fit := stagingBytes / ioSize;
    assert fit * ioSize <= stagingBytes < (fit + 1) * ioSize;
    var n := Larger(Larger(1, minSlots), Larger(1, fit));
    assert (fit + 1) * ioSize <= (n + 1) * ioSize;
    n
  }

  function Larger(a: int, b: int): int { if a >= b then a else b }
}
