/** What becomes of a slot that is given back, and which slot a reservation takes. */
module ReactorRetention {
  import opened Outcomes
  import opened OrderedKeys
  import opened ReactorState
  import opened ReactorSlots
  import opened Reactor
  import opened ReactorTokens
  import opened ReactorSlotSafety
  import opened ReactorMoves
  import opened ReactorSafety
  import opened ReactorRuns
  import opened ReactorTheorems
  import opened ReactorGuarantees
  import opened ReactorOutcomes
  import SC = StagingCache
  import Runs = StagingCacheRuns

  // ---------- Slots given back ----------

  /** The free list with slot `x` put back; a number that is no slot is refused. */
  function PutBack(z: Slots, x: Slot): seq<Slot> { if 0 <= x < z.cfg.slotCount then z.free + [x] else z.free }

  /** The cache has taken the slot. If it is full, a resident that no copy reads gives its slot up. */
  ghost predicate Retained(z: Slots, z': Slots, h: Hash, x: Slot) {
    if |z.cache.slots| < z.cache.capacity || Runs.AllPinned(z.cache) then
      z'.free == z.free && z'.cache.slots == z.cache.slots[h := SC.CacheSlot(x, 0)]
    else
      exists v :: v in z.cache.slots && z.cache.slots[v].copies <= 0
        && z'.free == PutBack(z, z.cache.slots[v].slotIndex) && z'.cache.slots == (z.cache.slots - {v})[h := SC.CacheSlot(x, 0)]
  }

  /** Slot `x` with the bytes of `h` has been given back. The retention cache takes it if there is one that keeps
      anything and does not have the block already; otherwise it is free. */
  ghost predicate GivenBack(z: Slots, z': Slots, h: Hash, x: Slot) {
    && z' == z.(cache := z'.cache, free := z'.free)
    && (if z.cfg.hasCache && z.cache.capacity > 0 && h !in z.cache.slots then Retained(z, z', h, x)
        else z'.cache == z.cache && z'.free == PutBack(z, x))
  }

  lemma PutInto(c: SC.Cache, h: Hash, x: Slot)
    requires SC.Agree(c) && c.capacity > 0 && h !in c.slots
    ensures var (c', freed) := SC.Put(c, h, x);
      if |c.slots| < c.capacity || Runs.AllPinned(c) then freed.None? && c'.slots == c.slots[h := SC.CacheSlot(x, 0)]
      else exists v :: v in c.slots && c.slots[v].copies <= 0
             && freed == Some(c.slots[v].slotIndex) && c'.slots == (c.slots - {v})[h := SC.CacheSlot(x, 0)]
  {
    hide SC.EvictOne, SC.Admit, SC.Agree;
    SC.EvictNoneIffAllPinned(c);
    if |c.slots| >= c.capacity && !Runs.AllPinned(c) { var v := SC.EvictRemovesOne(c); }
  }

  lemma GoesBack(z: Slots, h: Hash, x: Slot)
    requires SC.Agree(z.cache)
    ensures GivenBack(z, ReleaseOrCache(z, h, x), h, x)
  {
    hide SC.Put, SC.Agree;
    if z.cfg.hasCache {
      if z.cache.capacity > 0 && h !in z.cache.slots { PutInto(z.cache, h, x); } else { Runs.PutNothing(z.cache, h, x); }
    }
  }

  /** Whatever is given back, the block is in the cache afterwards exactly when it was there or the cache keeps anything. */
  lemma KeptIff(z: Slots, z': Slots, h: Hash, x: Slot)
    requires GivenBack(z, z', h, x)
    ensures h in z'.cache.slots <==> h in z.cache.slots || (z.cfg.hasCache && z.cache.capacity > 0)
  {
  }

  lemma CacheNow(s: State)
    requires Reached(s)
    ensures SC.Agree(s.slots.cache)
  {
    hide Reached, Sound, SlotSound, Outside;
    ReachedInv(s);
    SlotNow(s, multiset{});
    CacheAgrees(s.slots, s.memory, Outside(s) + multiset{});
  }

  // ---------- Slots taken ----------

  predicate CacheYields(z: Slots) { z.cfg.hasCache && !Runs.AllPinned(z.cache) }

  /** Slot `x` was the newest free one. */
  predicate TakesFree(z: Slots, z': Slots, x: Slot) {
    z.free != [] && x == z.free[|z.free| - 1] && z' == z.(free := z.free[..|z.free| - 1])
  }

  /** Slot `x` was the retention cache's victim: an entry that no copy reads. */
  ghost predicate TakesCached(z: Slots, z': Slots, x: Slot) {
    && z' == z.(cache := z'.cache) && (z'.cache, Some(x)) == SC.EvictOne(z.cache)
    && exists v :: v in z.cache.slots && z.cache.slots[v] .copies <= 0 && z.cache.slots[v].slotIndex == x && z'.cache.slots == z.cache.slots - {v}
  }

  /** Slot `x` was the claimable shared one that became so first, of those that no copy reads. The demand for its
      block is forgotten. */
  ghost predicate TakesShared(z: Slots, z': Slots, x: Slot) {
    && x in z.shared
    && (exists k :: 0 <= k < |z.sharedCached| && z.sharedCached[k] == x && Idle(z, x) && forall i :: 0 <= i < k ==> !Idle(z, z.sharedCached[i]))
    && z' == z.(shared := z.shared - {x}, sharedCached := Without(z.sharedCached, x), cachedTotal := z.cachedTotal - 1,
                refcount := z.refcount - {z.shared[x].hash}, owned := z'.owned)
    && (forall p :: p in z'.owned <==> p in z.owned && p.1 != z.shared[x].hash)
  }

  /** Slot `x` held the first private copy. */
  predicate TakesPrivate(z: Slots, z': Slots, x: Slot) {
    z.preload != [] && x == z.preload[0].slot && z' == z.(preload := z.preload[1..], cachedTotal := z.cachedTotal - 1)
  }

  predicate AnyIdle(z: Slots) { exists k :: 0 <= k < |z.sharedCached| && Idle(z, z.sharedCached[k]) }

  /** A slot for a load or a store: a free one, else one the cache gives up, else a preload's. */
  ghost predicate Foreground(z: Slots, z': Slots, x: Option<Slot>) {
    if z.free != [] then x.Some? && TakesFree(z, z', x.value)
    else if CacheYields(z) then x.Some? && TakesCached(z, z', x.value)
    else if z.cfg.sharePreload then (if AnyIdle(z) then x.Some? && TakesShared(z, z', x.value) else x.None? && z' == z)
    else if z.preload != [] then x.Some? && TakesPrivate(z, z', x.value)
    else x.None? && z' == z
  }

  /** A slot for a speculative read: a free one, else one the cache gives up, and never another preload's. */
  ghost predicate Spare(z: Slots, z': Slots, x: Option<Slot>) {
    if z.free != [] then x.Some? && TakesFree(z, z', x.value)
    else if CacheYields(z) then x.Some? && TakesCached(z, z', x.value)
    else x.None? && z' == z
  }

  /** Every slot that could be given up is one. */
  ghost predicate InRange(z: Slots) {
    && SC.Agree(z.cache)
    && (forall h :: h in z.cache.slots ==> 0 <= z.cache.slots[h].slotIndex < z.cfg.slotCount)
    && (forall x :: x in z.shared ==> 0 <= x < z.cfg.slotCount)
    && (forall k :: 0 <= k < |z.preload| ==> 0 <= z.preload[k].slot < z.cfg.slotCount)
  }

  lemma InRangeNow(s: State)
    requires Reached(s)
    ensures InRange(s.slots)
  {
    hide Reached, SC.Agree;
    CacheNow(s);
    forall h | h in s.slots.cache.slots ensures 0 <= s.slots.cache.slots[h].slotIndex < s.Cfg().slotCount {
      NoStraySlots(s, s.slots.cache.slots[h].slotIndex, CacheAt(h));
    }
    forall x | x in s.slots.shared ensures 0 <= x < s.Cfg().slotCount { NoStraySlots(s, x, SharedAt); }
    forall k | 0 <= k < |s.slots.preload| ensures 0 <= s.slots.preload[k].slot < s.Cfg().slotCount {
      NoStraySlots(s, s.slots.preload[k].slot, PrivateAt(k));
    }
  }

  lemma CacheGives(z: Slots) returns (x: Slot)
    requires InRange(z) && CacheYields(z) && z.free == []
    ensures var (z', x') := TryReserve(EvictCacheSlot(z).0);
      EvictCacheSlot(z).1 && EvictCacheSlot(z).0.free == [x] && x' == Some(x) && TakesCached(z, z', x)
  {
    hide SC.EvictOne, SC.Agree;
    SC.EvictNoneIffAllPinned(z.cache);
    var v := SC.EvictRemovesOne(z.cache);
    x := z.cache.slots[v].slotIndex;
    assert z.free + [x] == [x];
    assert [x][..0] == z.free;
  }

  lemma CacheRefuses(z: Slots)
    requires SC.Agree(z.cache) && !CacheYields(z)
    ensures EvictCacheSlot(z) == (z, false)
  {
    hide SC.EvictOne, SC.Agree;
    SC.EvictNoneIffAllPinned(z.cache);
  }

  lemma SpareOrder(z: Slots)
    requires InRange(z)
    ensures var (z', x) := ReservePreload(z); Spare(z, z', x)
  {
    hide InRange, EvictCacheSlot, TakesCached;
    if z.free == [] {
      if CacheYields(z) {
        var x := CacheGives(z);
      } else {
        AgreesIn(z);
        CacheRefuses(z);
      }
    }
  }

  lemma AgreesIn(z: Slots)
    requires InRange(z)
    ensures SC.Agree(z.cache)
  {
  }

  lemma {:induction false} PurgedIff(owned: seq<(ReqId, Hash)>, h: Hash)
    ensures forall p :: p in PurgeOwned(owned, h) <==> p in owned && p.1 != h
  {
    if owned != [] { PurgedIff(owned[..|owned| - 1], h); }
  }

  lemma SharedGives(z: Slots) returns (x: Slot)
    requires InRange(z) && AnyIdle(z) && z.free == []
    ensures var (z', x') := TryReserve(EvictShared(z).0);
      EvictShared(z).1 && x' == Some(x) && TakesShared(z, z', x)
  {
    hide PurgeOwned, SC.Agree;
    var k := FirstIdle(z, 0);
    x := z.sharedCached[k];
    PurgedIff(z.owned, z.shared[x].hash);
    assert z.free + [x] == [x] && [x][..0] == z.free;
    assert z.shared[x := z.shared[x].(cached := false)] - {x} == z.shared - {x};
  }

  lemma NoneIdle(z: Slots)
    requires !AnyIdle(z)
    ensures EvictShared(z) == (z, false)
  {
  }

  lemma PrivateGives(z: Slots)
    requires InRange(z) && z.preload != [] && z.free == [] && !z.cfg.sharePreload
    ensures var (z', x') := TryReserve(EvictPreload(z).0);
      EvictPreload(z).1 && x' == Some(z.preload[0].slot) && TakesPrivate(z, z', z.preload[0].slot)
  {
    var x := z.preload[0].slot;
    assert z.free + [x] == [x] && [x][..0] == z.free;
  }

  lemma ForegroundOrder(z: Slots)
    requires InRange(z)
    ensures var (z', x) := ReserveForeground(z); Foreground(z, z', x)
  {
    hide InRange, EvictCacheSlot, EvictShared, TakesCached, TakesShared, AnyIdle, CacheYields;
    if z.free == [] {
      if CacheYields(z) {
        var x := CacheGives(z);
      } else {
        AgreesIn(z);
        CacheRefuses(z);
        if !z.cfg.sharePreload {
          if z.preload != [] { PrivateGives(z); }
        } else if AnyIdle(z) {
          var x := SharedGives(z);
        } else {
          NoneIdle(z);
        }
      }
    }
  }
}
