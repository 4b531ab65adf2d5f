/** Slot handling conserves slots, the bytes in them and the references to them. */
module ReactorSlotSafety {
  import opened Outcomes
  import opened OrderedKeys
  import opened ReactorState
  import opened ReactorSlots
  import opened Reactor
  import opened ReactorTokens
  import SC = StagingCache

  /** The slots are in order when everything outside them holds `rest`. */
  ghost predicate SlotSound(z: Slots, memory: map<Slot, Hash>, rest: multiset<Token>) {
    SlotPart(z, memory, SlotsTotal(z) + rest)
  }

  /** No hash becomes claimable, and none that still is loses its demand. */
  ghost predicate ClaimsShrink(z: Slots, z': Slots) {
    && z'.cfg == z.cfg && z'.cachedTotal <= z.cachedTotal
    && (forall h: Hash :: Claims(z', h) <= Claims(z, h))
    && (forall h: Hash :: Claims(z', h) > 0 && Count(z.refcount, h) > 0 ==> Count(z'.refcount, h) > 0)
  }

  // ---------- The free list ----------

  /** An owner that stops expecting particular bytes. */
  lemma BlankInstead(z: Slots, m: map<Slot, Hash>, t: multiset<Token>, x: Slot, c: Token)
    requires SlotPart(z, m, t)
    requires (c.TBlank? || c.THas?) && c.x == x && c in t
    ensures SlotPart(z, m, t - multiset{c} + multiset{TBlank(x)})
  {
    hide SC.Agree;
  }

  lemma FreeListUnseen(z: Slots, m: map<Slot, Hash>, t: multiset<Token>, free: seq<Slot>)
    requires SlotPart(z, m, t)
    ensures SlotPart(z.(free := free), m, t) && ClaimsShrink(z, z.(free := free))
  {
    hide SC.Agree;
  }

  lemma FreeTokens(z: Slots, x: Slot)
    ensures SlotsTotal(z.(free := z.free + [x])) == SlotsTotal(z) + BlankTokens(x)
  {
    hide Flat, Sum;
    FlatAppend(z.free, x, BlankTokens);
  }

  lemma InRange(z: Slots, m: map<Slot, Hash>, rest: multiset<Token>, x: Slot)
    requires SlotSound(z, m, rest) && TSlot(x) in rest
    ensures 0 <= x < z.cfg.slotCount
  {
    hide SlotsTotal, SC.Agree;
  }

  lemma ReleaseSound(z: Slots, m: map<Slot, Hash>, rest: multiset<Token>, x: Slot, c: Token)
    requires SlotSound(z, m, rest + multiset{TSlot(x), c})
    requires (c.TBlank? || c.THas?) && c.x == x
    ensures SlotSound(Release(z, x), m, rest) && ClaimsShrink(z, Release(z, x))
    ensures Release(z, x).free != []
  {
    hide SlotsTotal, SlotPart, ClaimsShrink, BlankTokens;
    InRange(z, m, rest + multiset{TSlot(x), c}, x);
    var t := SlotsTotal(z) + (rest + multiset{TSlot(x), c});
    BlankInstead(z, m, t, x, c);
    FreeListUnseen(z, m, t - multiset{c} + multiset{TBlank(x)}, z.free + [x]);
    FreeTokens(z, x);
    BlankCount(SlotsTotal(z), rest, x, c);
  }

  lemma BlankCount(a: multiset<Token>, rest: multiset<Token>, x: Slot, c: Token)
    ensures a + (rest + multiset{TSlot(x), c}) - multiset{c} + multiset{TBlank(x)} == a + BlankTokens(x) + rest
  {
    var t := rest + multiset{TSlot(x), c};
    assert t - multiset{c} == rest + multiset{TSlot(x)};
    assert a + t - multiset{c} == a + (t - multiset{c});
  }

  lemma TryReserveSound(z: Slots, m: map<Slot, Hash>, rest: multiset<Token>)
    requires SlotSound(z, m, rest) && z.free != []
    ensures var (z', x) := TryReserve(z);
      x.Some? && SlotSound(z', m, rest + BlankTokens(x.value)) && ClaimsShrink(z, z')
  {
    hide SlotsTotal, SlotPart, ClaimsShrink;
    var (z', x) := TryReserve(z);
    assert z.free == z'.free + [x.value];
    FreeTokens(z', x.value);
    FreeListUnseen(z, m, SlotsTotal(z) + rest, z'.free);
    assert SlotsTotal(z) + rest == SlotsTotal(z') + (rest + BlankTokens(x.value));
  }

  // ---------- The cache ----------

  /** A cache whose entries are those of `slots` less one that no copy reads. */
  lemma CacheDropTokens(z: Slots, c: SC.Cache, h: Hash)
    requires h in z.cache.slots && c.slots == z.cache.slots - {h}
    ensures SlotsTotal(z) == SlotsTotal(z.(cache := c)) + HasTokens(z.cache.slots[h].slotIndex, h)
  {
    hide Flat, Sum;
    SumRemove(z.cache.slots, h, CacheTokens);
  }

  lemma CacheDropPart(z: Slots, m: map<Slot, Hash>, t: multiset<Token>, c: SC.Cache, h: Hash)
    requires SlotPart(z, m, t)
    requires h in z.cache.slots && z.cache.slots[h].copies <= 0 && c.slots == z.cache.slots - {h} && SC.Agree(c)
    ensures SlotPart(z.(cache := c), m, t) && ClaimsShrink(z, z.(cache := c))
  {
    hide SC.Agree;
  }

  lemma CacheDropSound(z: Slots, m: map<Slot, Hash>, rest: multiset<Token>, c: SC.Cache, h: Hash)
    requires SlotSound(z, m, rest)
    requires h in z.cache.slots && z.cache.slots[h].copies <= 0 && c.slots == z.cache.slots - {h} && SC.Agree(c)
    ensures SlotSound(z.(cache := c), m, rest + HasTokens(z.cache.slots[h].slotIndex, h)) && ClaimsShrink(z, z.(cache := c))
  {
    hide SlotsTotal, SlotPart, ClaimsShrink, SC.Agree;
    CacheDropTokens(z, c, h);
    var t := SlotsTotal(z) + rest;
    CacheDropPart(z, m, t, c, h);
    assert t == SlotsTotal(z.(cache := c)) + (rest + HasTokens(z.cache.slots[h].slotIndex, h));
  }

  lemma CacheAgrees(z: Slots, m: map<Slot, Hash>, rest: multiset<Token>)
    requires SlotSound(z, m, rest)
    ensures SC.Agree(z.cache)
  {
    hide SlotsTotal, SC.Agree;
  }

  /** Evicting from the cache frees one slot, or every entry is being read. */
  lemma EvictCacheSlotSound(z: Slots, m: map<Slot, Hash>, rest: multiset<Token>)
    requires SlotSound(z, m, rest)
    ensures var (z', evicted) := EvictCacheSlot(z);
      && SlotSound(z', m, rest) && ClaimsShrink(z, z')
      && (evicted ==> z'.free != [])
      && (!evicted ==> z' == z && (z.cfg.hasCache ==> forall h :: h in z.cache.slots ==> z.cache.slots[h].copies > 0))
  {
    CacheAgrees(z, m, rest);
    hide SlotSound, ClaimsShrink, SC.EvictOne, SC.Agree;
    ShrinkSelf(z);
    if z.cfg.hasCache {
      var (c, freed) := SC.EvictOne(z.cache);
      SC.EvictNoneIffAllPinned(z.cache);
      SC.EvictAgrees(z.cache);
      if freed.Some? {
        var h := SC.EvictRemovesOne(z.cache);
        CacheDropSound(z, m, rest, c, h);
        assert HasTokens(freed.value, h) == multiset{TSlot(freed.value), THas(freed.value, h)};
        ReleaseSound(z.(cache := c), m, rest, freed.value, THas(freed.value, h));
        ShrinkTwice(z, z.(cache := c), Release(z.(cache := c), freed.value));
      }
    }
  }

  lemma ShrinkSelf(z: Slots)
    ensures ClaimsShrink(z, z)
  {
  }

  lemma ShrinkTwice(z: Slots, z1: Slots, z2: Slots)
    requires ClaimsShrink(z, z1) && ClaimsShrink(z1, z2)
    ensures ClaimsShrink(z, z2)
  {
    hide Claims, Count;
  }

  lemma CacheAddTokens(z: Slots, c: SC.Cache, h: Hash, x: Slot)
    requires h !in z.cache.slots && c.slots == z.cache.slots[h := SC.CacheSlot(x, 0)]
    ensures SlotsTotal(z.(cache := c)) == SlotsTotal(z) + HasTokens(x, h)
  {
    hide Flat, Sum;
    SumAdd(z.cache.slots, h, SC.CacheSlot(x, 0), CacheTokens);
  }

  lemma CacheAddPart(z: Slots, m: map<Slot, Hash>, t: multiset<Token>, c: SC.Cache, h: Hash, x: Slot)
    requires SlotPart(z, m, t) && z.cfg.hasCache
    requires h !in z.cache.slots && c.slots == z.cache.slots[h := SC.CacheSlot(x, 0)] && SC.Agree(c)
    ensures SlotPart(z.(cache := c), m, t) && ClaimsShrink(z, z.(cache := c))
  {
    hide SC.Agree;
  }

  lemma CacheAddSound(z: Slots, m: map<Slot, Hash>, rest: multiset<Token>, c: SC.Cache, h: Hash, x: Slot)
    requires SlotSound(z, m, rest + HasTokens(x, h)) && z.cfg.hasCache
    requires h !in z.cache.slots && c.slots == z.cache.slots[h := SC.CacheSlot(x, 0)] && SC.Agree(c)
    ensures SlotSound(z.(cache := c), m, rest) && ClaimsShrink(z, z.(cache := c))
  {
    hide SlotsTotal, SlotPart, ClaimsShrink, SC.Agree;
    CacheAddTokens(z, c, h, x);
    var t := SlotsTotal(z) + (rest + HasTokens(x, h));
    CacheAddPart(z, m, t, c, h, x);
    assert t == SlotsTotal(z.(cache := c)) + rest;
  }

  /** A cache with a new policy state but the same entries. */
  lemma CacheSameSound(z: Slots, m: map<Slot, Hash>, rest: multiset<Token>, c: SC.Cache)
    requires SlotSound(z, m, rest) && c.slots == z.cache.slots && SC.Agree(c)
    ensures SlotSound(z.(cache := c), m, rest) && ClaimsShrink(z, z.(cache := c))
  {
    hide Flat, Sum, SC.Agree;
  }

  lemma ReleaseHasSound(z: Slots, m: map<Slot, Hash>, rest: multiset<Token>, h: Hash, x: Slot)
    requires SlotSound(z, m, rest + HasTokens(x, h))
    ensures SlotSound(Release(z, x), m, rest) && ClaimsShrink(z, Release(z, x)) && Release(z, x).free != []
  {
    hide SlotSound, ClaimsShrink;
    assert HasTokens(x, h) == multiset{TSlot(x), THas(x, h)};
    ReleaseSound(z, m, rest, x, THas(x, h));
  }

  lemma ReleaseBlankSound(z: Slots, m: map<Slot, Hash>, rest: multiset<Token>, x: Slot)
    requires SlotSound(z, m, rest + BlankTokens(x))
    ensures SlotSound(Release(z, x), m, rest) && ClaimsShrink(z, Release(z, x)) && Release(z, x).free != []
  {
    hide SlotSound, ClaimsShrink;
    assert BlankTokens(x) == multiset{TSlot(x), TBlank(x)};
    ReleaseSound(z, m, rest, x, TBlank(x));
  }

  /** What `Put` does, as a drop and an addition. */
  lemma PutCases(c: SC.Cache, h: Hash, x: Slot)
    requires SC.Agree(c)
    ensures var (c', freed) := SC.Put(c, h, x);
      || (c' == c && freed == Some(x))
      || (h !in c.slots && freed.None? && c'.slots == c.slots[h := SC.CacheSlot(x, 0)] && SC.Agree(c'))
      || (h !in c.slots && SC.EvictOne(c).1.Some? && freed == SC.EvictOne(c).1 && SC.Agree(c') && SC.Agree(SC.EvictOne(c).0)
          && c'.slots == SC.EvictOne(c).0.slots[h := SC.CacheSlot(x, 0)])
  {
    hide SC.Agree, SC.EvictOne, SC.Admit;
    SC.PutAgrees(c, h, x);
    SC.EvictAgrees(c);
    SC.EvictNoneIffAllPinned(c);
  }

  /** Handing a slot to the cache: it is kept, or it or a victim's is freed. */
  lemma ReleaseOrCacheSound(z: Slots, m: map<Slot, Hash>, rest: multiset<Token>, h: Hash, x: Slot)
    requires SlotSound(z, m, rest + HasTokens(x, h))
    ensures SlotSound(ReleaseOrCache(z, h, x), m, rest) && ClaimsShrink(z, ReleaseOrCache(z, h, x))
  {
    CacheAgrees(z, m, rest + HasTokens(x, h));
    hide SlotSound, ClaimsShrink, SC.Put, SC.EvictOne, SC.Agree, Release, HasTokens;
    if !z.cfg.hasCache {
      ReleaseHasSound(z, m, rest, h, x);
    } else {
      PutCases(z.cache, h, x);
      var (c, freed) := SC.Put(z.cache, h, x);
      if freed.None? {
        CacheAddSound(z, m, rest, c, h, x);
      } else if c == z.cache && freed == Some(x) {
        assert z.(cache := c) == z;
        ReleaseHasSound(z, m, rest, h, x);
      } else {
        PutEvictsSound(z, m, rest, h, x);
      }
    }
  }

  lemma PutEvictsSound(z: Slots, m: map<Slot, Hash>, rest: multiset<Token>, h: Hash, x: Slot)
    requires SlotSound(z, m, rest + HasTokens(x, h)) && z.cfg.hasCache && SC.Agree(z.cache)
    requires h !in z.cache.slots && SC.EvictOne(z.cache).1.Some?
    requires var (c', freed) := SC.Put(z.cache, h, x);
      && freed == SC.EvictOne(z.cache).1 && SC.Agree(c') && SC.Agree(SC.EvictOne(z.cache).0)
      && c'.slots == SC.EvictOne(z.cache).0.slots[h := SC.CacheSlot(x, 0)]
    ensures var (c', freed) := SC.Put(z.cache, h, x);
      SlotSound(Release(z.(cache := c'), freed.value), m, rest) && ClaimsShrink(z, Release(z.(cache := c'), freed.value))
  {
    hide SlotSound, ClaimsShrink, SC.Put, SC.EvictOne, SC.Agree, Release, HasTokens;
    var v := SC.EvictRemovesOne(z.cache);
    var c, freed := SC.EvictOne(z.cache).0, SC.EvictOne(z.cache).1.value;
    var c' := SC.Put(z.cache, h, x).0;
    var z1, z2 := z.(cache := c), z.(cache := c');
    CacheDropSound(z, m, rest + HasTokens(x, h), c, v);
    assert rest + HasTokens(x, h) + HasTokens(freed, v) == rest + HasTokens(freed, v) + HasTokens(x, h);
    CacheAddSound(z1, m, rest + HasTokens(freed, v), c', h, x);
    assert z1.(cache := c') == z2;
    ReleaseHasSound(z2, m, rest, v, freed);
    ShrinkTwice(z, z1, z2);
    ShrinkTwice(z, z2, Release(z2, freed));
  }

  // ---------- The bytes in the slots ----------

  /** A read or a copy into the slot is over: it now holds the bytes of a hash. */
  lemma FillSound(z: Slots, m: map<Slot, Hash>, rest: multiset<Token>, x: Slot, h: Hash)
    requires SlotSound(z, m, rest + BlankTokens(x))
    ensures SlotSound(z, m[x := h], rest + HasTokens(x, h))
  {
    hide SlotsTotal, SlotPart;
    var t := SlotsTotal(z) + (rest + BlankTokens(x));
    FillPart(z, m, t, x, h);
    assert t - multiset{TBlank(x)} + multiset{THas(x, h)} == SlotsTotal(z) + (rest + HasTokens(x, h)) by {
      FillCount(SlotsTotal(z), rest, x, h);
    }
  }

  lemma FillCount(a: multiset<Token>, rest: multiset<Token>, x: Slot, h: Hash)
    ensures a + (rest + BlankTokens(x)) - multiset{TBlank(x)} + multiset{THas(x, h)} == a + (rest + HasTokens(x, h))
  {
    var t := rest + BlankTokens(x);
    assert t - multiset{TBlank(x)} == rest + multiset{TSlot(x)};
    assert a + t - multiset{TBlank(x)} == a + (t - multiset{TBlank(x)});
  }

  lemma FillPart(z: Slots, m: map<Slot, Hash>, t: multiset<Token>, x: Slot, h: Hash)
    requires SlotPart(z, m, t) && TBlank(x) in t
    ensures SlotPart(z, m[x := h], t - multiset{TBlank(x)} + multiset{THas(x, h)})
  {
    hide SC.Agree;
  }

  /** The device may overwrite a slot whose owner expects no bytes. */
  lemma ClobberSound(z: Slots, m: map<Slot, Hash>, rest: multiset<Token>, x: Slot)
    requires SlotSound(z, m, rest) && TBlank(x) in rest
    ensures SlotSound(z, m - {x}, rest)
  {
    hide SlotsTotal, SC.Agree;
  }

  // ---------- Shared slot objects ----------

  /** Changing the count or the mark of a shared slot moves no tokens. */
  lemma SharedUpdateTokens(z: Slots, x: Slot, sh: SharedSlot, cached: seq<Slot>, n: int)
    requires x in z.shared && z.shared[x].hash == sh.hash
    ensures SlotsTotal(z.(shared := z.shared[x := sh], sharedCached := cached, cachedTotal := n)) == SlotsTotal(z)
  {
    hide Flat, Sum;
    SumUpdate(z.shared, x, sh, SharedTokens);
    var a, b := Sum(z.shared, SharedTokens), Sum(z.shared[x := sh], SharedTokens);
    assert b + SharedTokens(x, sh) - SharedTokens(x, sh) == b;
    assert a + SharedTokens(x, sh) - SharedTokens(x, sh) == a;
  }

  lemma AddCopiesPart(z: Slots, m: map<Slot, Hash>, t: multiset<Token>, x: Slot)
    requires SlotPart(z, m, t) && x in z.shared
    ensures SlotPart(AddCopies(z, x, 1), m, t + multiset{TShared(x, z.shared[x].hash)})
  {
    OneEachKept(z.sharedCached, z.shared, AddCopies(z, x, 1).shared);
    hide SC.Agree;
  }

  lemma SameHashesShrink(z: Slots, x: Slot, sh: SharedSlot)
    requires x in z.shared && z.shared[x].hash == sh.hash
    ensures ClaimsShrink(z, z.(shared := z.shared[x := sh]))
  {
  }

  lemma AddCopySound(z: Slots, m: map<Slot, Hash>, rest: multiset<Token>, x: Slot)
    requires SlotSound(z, m, rest) && x in z.shared
    ensures SlotSound(AddCopies(z, x, 1), m, rest + multiset{TShared(x, z.shared[x].hash)})
    ensures ClaimsShrink(z, AddCopies(z, x, 1))
  {
    hide SlotsTotal, SlotPart, ClaimsShrink;
    var sh := z.shared[x].(copies := z.shared[x].copies + 1);
    SharedUpdateTokens(z, x, sh, z.sharedCached, z.cachedTotal);
    AddCopiesPart(z, m, SlotsTotal(z) + rest, x);
    SameHashesShrink(z, x, sh);
    var e := multiset{TShared(x, z.shared[x].hash)};
    assert SlotsTotal(z) + rest + e == SlotsTotal(z) + (rest + e);
  }

  lemma DropCopyPart(z: Slots, m: map<Slot, Hash>, t: multiset<Token>, x: Slot, h: Hash)
    requires SlotPart(z, m, t) && TShared(x, h) in t
    ensures x in z.shared && z.shared[x].hash == h
    ensures SlotPart(AddCopies(z, x, -1), m, t - multiset{TShared(x, h)} + multiset{THandle(x)})
  {
    OneEachKept(z.sharedCached, z.shared, AddCopies(z, x, -1).shared);
    hide SC.Agree;
  }

  lemma DropCopySound(z: Slots, m: map<Slot, Hash>, rest: multiset<Token>, x: Slot, h: Hash)
    requires SlotSound(z, m, rest + multiset{TShared(x, h)})
    ensures x in z.shared && z.shared[x].hash == h
    ensures SlotSound(AddCopies(z, x, -1), m, rest + multiset{THandle(x)})
    ensures ClaimsShrink(z, AddCopies(z, x, -1))
  {
    hide SlotsTotal, SlotPart, ClaimsShrink;
    var t := SlotsTotal(z) + (rest + multiset{TShared(x, h)});
    DropCopyPart(z, m, t, x, h);
    var sh := z.shared[x].(copies := z.shared[x].copies - 1);
    SharedUpdateTokens(z, x, sh, z.sharedCached, z.cachedTotal);
    SameHashesShrink(z, x, sh);
    SwapCount(SlotsTotal(z), rest, TShared(x, h), THandle(x));
  }

  lemma SwapCount(a: multiset<Token>, rest: multiset<Token>, c: Token, d: Token)
    ensures a + (rest + multiset{c}) - multiset{c} + multiset{d} == a + (rest + multiset{d})
  {
    assert a + (rest + multiset{c}) - multiset{c} == a + rest;
  }

  /** Holding on to a shared slot for the length of a step. */
  lemma TakeHandle(z: Slots, m: map<Slot, Hash>, rest: multiset<Token>, x: Slot)
    requires SlotSound(z, m, rest)
    ensures SlotSound(z, m, rest + multiset{THandle(x)})
  {
    hide SlotsTotal, SC.Agree;
  }

  lemma LeaveHandle(z: Slots, m: map<Slot, Hash>, rest: multiset<Token>, x: Slot)
    requires SlotSound(z, m, rest + multiset{THandle(x)})
    requires x in z.shared ==> z.shared[x].cached || z.shared[x].copies > 0
    ensures SlotSound(z, m, rest)
  {
    hide SlotsTotal, SC.Agree;
  }

  lemma DropSharedTokens(z: Slots, x: Slot)
    requires x in z.shared
    ensures SlotsTotal(z) == SlotsTotal(z.(shared := z.shared - {x})) + HasTokens(x, z.shared[x].hash)
  {
    hide Flat, Sum;
    SumRemove(z.shared, x, SharedTokens);
  }

  lemma DropSharedPart(z: Slots, m: map<Slot, Hash>, t: multiset<Token>, x: Slot)
    requires SlotPart(z, m, t) && x in z.shared && !z.shared[x].cached && z.shared[x].copies <= 0
    ensures SlotPart(z.(shared := z.shared - {x}), m, t) && ClaimsShrink(z, z.(shared := z.shared - {x}))
  {
    assert x !in z.sharedCached && z.cfg.sharePreload;
    assert t[TShared(x, z.shared[x].hash)] == 0;
    hide SC.Agree, SlotsOwned, BytesRight;
    var z' := z.(shared := z.shared - {x});
    assert forall y: Slot, h: Hash :: t[TShared(y, h)] > 0 ==> y in z'.shared && z'.shared[y].hash == h;
    OneEachKept(z.sharedCached, z.shared, z'.shared);
  }

  lemma OneEachKept(s: seq<Slot>, shared: map<Slot, SharedSlot>, shared': map<Slot, SharedSlot>)
    requires OneEach(s, shared)
    requires forall y :: y in s ==> y in shared && y in shared' && shared'[y].hash == shared[y].hash
    ensures OneEach(s, shared')
  {
  }

  /** An object that is neither claimable nor read gives up its slot. */
  lemma DropSharedSound(z: Slots, m: map<Slot, Hash>, rest: multiset<Token>, x: Slot)
    requires SlotSound(z, m, rest + multiset{THandle(x)})
    requires x in z.shared && !z.shared[x].cached && z.shared[x].copies <= 0
    ensures var z' := z.(shared := z.shared - {x});
      SlotSound(z', m, rest + HasTokens(x, z.shared[x].hash)) && ClaimsShrink(z, z')
  {
    hide SlotsTotal, SlotPart, ClaimsShrink, HasTokens;
    var t := SlotsTotal(z) + (rest + multiset{THandle(x)});
    DropSharedPart(z, m, t, x);
    DropSharedTokens(z, x);
    var z', e := z.(shared := z.shared - {x}), HasTokens(x, z.shared[x].hash);
    assert t == SlotsTotal(z') + (rest + e + multiset{THandle(x)});
    LeaveHandle(z', m, rest + e, x);
  }

  lemma MaybeReleaseSound(z: Slots, m: map<Slot, Hash>, rest: multiset<Token>, x: Slot)
    requires SlotSound(z, m, rest + multiset{THandle(x)})
    ensures SlotSound(MaybeReleaseShared(z, x), m, rest) && ClaimsShrink(z, MaybeReleaseShared(z, x))
  {
    hide SlotSound, ClaimsShrink, ReleaseOrCache, HasTokens;
    ShrinkSelf(z);
    if x !in z.shared || z.shared[x].cached || z.shared[x].copies > 0 {
      LeaveHandle(z, m, rest, x);
    } else {
      var z1 := z.(shared := z.shared - {x});
      DropSharedSound(z, m, rest, x);
      ReleaseOrCacheSound(z1, m, rest, z.shared[x].hash, x);
      ShrinkTwice(z, z1, ReleaseOrCache(z1, z.shared[x].hash, x));
    }
  }

  lemma UncachePart(z: Slots, m: map<Slot, Hash>, t: multiset<Token>, x: Slot)
    requires SlotPart(z, m, t) && x in z.sharedCached && THandle(x) in t
    ensures x in z.shared && SlotPart(Uncache(z, x), m, t)
    ensures ClaimsShrink(z, Uncache(z, x)) && Claims(Uncache(z, x), z.shared[x].hash) == 0
  {
    CutsOut(z.sharedCached, x, z.shared);
    UncacheSharedOk(z, t, x);
    UncacheClaims(z, x);
    hide SC.Agree, SharedOk, Claims, Without, Distinct;
  }

  lemma UncacheClaims(z: Slots, x: Slot)
    requires x in z.sharedCached && OneEach(z.sharedCached, z.shared)
    ensures ClaimsShrink(z, Uncache(z, x)) && Claims(Uncache(z, x), z.shared[x].hash) == 0
  {
    CutsOut(z.sharedCached, x, z.shared);
    hide Without;
  }

  lemma UncacheSharedOk(z: Slots, t: multiset<Token>, x: Slot)
    requires SharedOk(z, t) && x in z.sharedCached && THandle(x) in t
    ensures SharedOk(Uncache(z, x), t) && OneEach(z.sharedCached, z.shared)
  {
    CutsOut(z.sharedCached, x, z.shared);
    hide Without;
  }

  /** Cutting one slot out leaves the others, still with different hashes. */
  lemma CutsOut(s: seq<Slot>, x: Slot, shared: map<Slot, SharedSlot>)
    requires x in s && OneEach(s, shared)
    ensures var s' := Without(s, x);
      && |s'| == |s| - 1 && OneEach(s', shared)
      && (forall y :: y in s' <==> y in s && y != x)
  {
    WithoutDistinct(s, x);
  }

  lemma UncacheSound(z: Slots, m: map<Slot, Hash>, rest: multiset<Token>, x: Slot)
    requires SlotSound(z, m, rest) && x in z.sharedCached
    ensures x in z.shared && SlotSound(Uncache(z, x), m, rest + multiset{THandle(x)})
    ensures ClaimsShrink(z, Uncache(z, x)) && Claims(Uncache(z, x), z.shared[x].hash) == 0
    ensures Uncache(z, x).shared == z.shared[x := z.shared[x].(cached := false)]
  {
    TakeHandle(z, m, rest, x);
    hide SlotsTotal, SlotPart, ClaimsShrink, Claims;
    UncachePart(z, m, SlotsTotal(z) + (rest + multiset{THandle(x)}), x);
    var z' := Uncache(z, x);
    SharedUpdateTokens(z, x, z.shared[x].(cached := false), z'.sharedCached, z'.cachedTotal);
  }

  // ---------- Who wants a hash ----------

  lemma {:induction false} OwnersConcat(a: seq<(ReqId, Hash)>, b: seq<(ReqId, Hash)>, h: Hash)
    ensures Owners(a + b, h) == Owners(a, h) + Owners(b, h)
  {
    if b == [] {
      assert a + b == a;
    } else {
      assert (a + b)[..|a + b| - 1] == a + b[..|b| - 1];
      OwnersConcat(a, b[..|b| - 1], h);
    }
  }

  lemma OwnersOne(k: (ReqId, Hash), h: Hash)
    ensures Owners([k], h) == One(k.1 == h)
  {
    assert [k][..0] == [];
  }

  lemma OwnersWithout(owned: seq<(ReqId, Hash)>, k: (ReqId, Hash), h: Hash)
    requires k in owned
    ensures Owners(owned, h) == Owners(Without(owned, k), h) + One(k.1 == h)
  {
    hide Owners;
    var i := WithoutSplit(owned, k);
    assert owned == owned[..i] + ([k] + owned[i + 1..]);
    OwnersConcat(owned[..i], [k] + owned[i + 1..], h);
    OwnersConcat([k], owned[i + 1..], h);
    OwnersConcat(owned[..i], owned[i + 1..], h);
    OwnersOne(k, h);
  }

  lemma {:induction false} OwnersPurged(owned: seq<(ReqId, Hash)>, h: Hash, k: Hash)
    ensures Owners(PurgeOwned(owned, h), k) == if k == h then 0 else Owners(owned, k)
  {
    if owned != [] {
      var front, last := owned[..|owned| - 1], owned[|owned| - 1];
      OwnersPurged(front, h, k);
      OwnersConcat(PurgeOwned(front, h), if last.1 == h then [] else [last], k);
      OwnersOne(last, k);
    }
  }

  lemma OwnersSuffix(owned: seq<(ReqId, Hash)>, n: nat, h: Hash)
    ensures Owners(Suffix(owned, n), h) <= Owners(owned, h)
  {
    if |owned| > n {
      var i := |owned| - n;
      assert owned == owned[..i] + owned[i..];
      OwnersConcat(owned[..i], owned[i..], h);
    }
  }

  /** The demand counters after one request has withdrawn. */
  function Withdrawn(refcount: map<Hash, int>, h: Hash): map<Hash, int> {
    if Count(refcount, h) > 1 then refcount[h := refcount[h] - 1] else refcount - {h}
  }

  /** Withdrawing a request takes it off the record and off the count, once each, for its hash only. */
  lemma WithdrawnCounts(owned: seq<(ReqId, Hash)>, refcount: map<Hash, int>, r: ReqId, h: Hash)
    requires DemandCounted(owned, refcount) && (r, h) in owned
    ensures forall k: Hash :: Owners(Without(owned, (r, h)), k) == Owners(owned, k) - One(k == h)
    ensures forall k: Hash :: Count(Withdrawn(refcount, h), k) == Count(refcount, k) - One(k == h)
    ensures DemandCounted(Without(owned, (r, h)), Withdrawn(refcount, h))
  {
    hide Owners, Without;
    forall k: Hash ensures Owners(Without(owned, (r, h)), k) == Owners(owned, k) - One(k == h) {
      OwnersWithout(owned, (r, h), k);
    }
    assert Owners(owned, h) >= 1 && Count(refcount, h) >= 1 by { OwnersWithout(owned, (r, h), h); }
  }

  lemma ForgottenCounts(owned: seq<(ReqId, Hash)>, refcount: map<Hash, int>, h: Hash)
    requires DemandCounted(owned, refcount)
    ensures DemandCounted(PurgeOwned(owned, h), refcount - {h})
  {
    hide Owners, PurgeOwned;
    forall k: Hash ensures Owners(PurgeOwned(owned, h), k) <= Count(refcount - {h}, k) { OwnersPurged(owned, h, k); }
  }

  /** A new request joins the record and the count; the cap may drop older ones from the record only. */
  lemma JoinedCounts(owned: seq<(ReqId, Hash)>, refcount: map<Hash, int>, r: ReqId, h: Hash, cap: nat)
    requires DemandCounted(owned, refcount)
    ensures DemandCounted(Suffix(owned + [(r, h)], cap), Raise(refcount, h))
  {
    hide Owners, Suffix;
    forall k: Hash ensures Owners(Suffix(owned + [(r, h)], cap), k) <= Count(Raise(refcount, h), k) {
      OwnersSuffix(owned + [(r, h)], cap, k);
      OwnersConcat(owned, [(r, h)], k);
      OwnersOne((r, h), k);
    }
  }

  lemma CountedNow(z: Slots, m: map<Slot, Hash>, rest: multiset<Token>)
    requires SlotSound(z, m, rest) && z.cfg.sharePreload
    ensures DemandCounted(z.owned, z.refcount)
  {
    hide SlotsTotal, DemandCounted, SC.Agree;
  }

  /** Who wants a hash is not seen by the slots, as long as all of them are counted. */
  lemma DemandFieldsUnseen(z: Slots, m: map<Slot, Hash>, rest: multiset<Token>, owned: seq<(ReqId, Hash)>, refcount: map<Hash, int>)
    requires SlotSound(z, m, rest) && (z.cfg.sharePreload ==> DemandCounted(owned, refcount))
    ensures SlotSound(z.(owned := owned, refcount := refcount), m, rest)
  {
    hide Flat, Sum, DemandCounted, SC.Agree;
  }

  /** Demand for a hash may go once it is no longer claimable. */
  lemma ForgetShrinks(z: Slots, z': Slots, h: Hash, owned: seq<(ReqId, Hash)>)
    requires ClaimsShrink(z, z') && Claims(z', h) == 0
    ensures ClaimsShrink(z, z'.(owned := owned, refcount := z'.refcount - {h}))
  {
    var z'' := z'.(owned := owned, refcount := z'.refcount - {h});
    assert forall k: Hash :: Claims(z'', k) == Claims(z', k);
    hide Claims;
  }

  lemma ClaimableMeansClaimed(z: Slots, m: map<Slot, Hash>, rest: multiset<Token>, h: Hash)
    requires SlotSound(z, m, rest)
    ensures Claims(z, h) > 0 <==> Claimable(z, h).Some?
    ensures Claimable(z, h).Some? ==>
      var x := Claimable(z, h).value; x in z.sharedCached && x in z.shared && z.shared[x].hash == h && z.shared[x].cached
  {
    hide SlotsTotal, SC.Agree;
  }

  lemma LowerRefShrinks(z: Slots, h: Hash, owned: seq<(ReqId, Hash)>)
    requires Count(z.refcount, h) > 1
    ensures ClaimsShrink(z, z.(owned := owned, refcount := z.refcount[h := z.refcount[h] - 1]))
  {
    var z' := z.(owned := owned, refcount := z.refcount[h := z.refcount[h] - 1]);
    assert forall k: Hash :: Claims(z', k) == Claims(z, k);
    hide Claims;
  }

  /** The record and the counters stay in step when a request withdraws. */
  lemma WithdrawSound(z: Slots, m: map<Slot, Hash>, rest: multiset<Token>, r: ReqId, h: Hash)
    requires SlotSound(z, m, rest) && (r, h) in z.owned
    ensures SlotSound(z.(owned := Without(z.owned, (r, h)), refcount := Withdrawn(z.refcount, h)), m, rest)
  {
    hide SlotSound, DemandCounted, Without, Withdrawn;
    if z.cfg.sharePreload {
      CountedNow(z, m, rest);
      WithdrawnCounts(z.owned, z.refcount, r, h);
    }
    DemandFieldsUnseen(z, m, rest, Without(z.owned, (r, h)), Withdrawn(z.refcount, h));
  }

  /** Withdrawing a request's demand lets the last demander's slot go. */
  lemma DecrefSound(z: Slots, m: map<Slot, Hash>, rest: multiset<Token>, r: ReqId, h: Hash)
    requires SlotSound(z, m, rest)
    ensures SlotSound(Decref(z, r, h), m, rest) && ClaimsShrink(z, Decref(z, r, h))
  {
    hide SlotSound, ClaimsShrink, Claims, MaybeReleaseShared, Uncache, Claimable, Without;
    ShrinkSelf(z);
    if (r, h) in z.owned {
      var owned := Without(z.owned, (r, h));
      WithdrawSound(z, m, rest, r, h);
      if Count(z.refcount, h) > 1 {
        LowerRefShrinks(z, h, owned);
      } else {
        LastDecrefSound(z, m, rest, owned, h);
      }
    }
  }

  lemma LastDecrefSound(z: Slots, m: map<Slot, Hash>, rest: multiset<Token>, owned: seq<(ReqId, Hash)>, h: Hash)
    requires SlotSound(z.(owned := owned, refcount := z.refcount - {h}), m, rest)
    ensures var z2 := z.(owned := owned, refcount := z.refcount - {h});
      var x := Claimable(z2, h);
      var z' := if x.None? then z2 else MaybeReleaseShared(Uncache(z2, x.value), x.value);
      SlotSound(z', m, rest) && ClaimsShrink(z, z')
  {
    hide SlotSound, ClaimsShrink, Claims, MaybeReleaseShared, Uncache, Claimable;
    ShrinkSelf(z);
    var z2 := z.(owned := owned, refcount := z.refcount - {h});
    ClaimableMeansClaimed(z2, m, rest, h);
    ClaimsOnlyShared(z, z2);
    var x := Claimable(z2, h);
    if x.None? {
      ForgetShrinks(z, z, h, owned);
    } else {
      UncacheSound(z2, m, rest, x.value);
      var z3 := Uncache(z2, x.value);
      UncacheForgetShrinks(z, z3, h, owned, x.value);
      MaybeReleaseSound(z3, m, rest, x.value);
      ShrinkTwice(z, z3, MaybeReleaseShared(z3, x.value));
    }
  }

  lemma ClaimsOnlyShared(z: Slots, z': Slots)
    requires z'.shared == z.shared && z'.sharedCached == z.sharedCached
    ensures forall h: Hash :: Claims(z', h) == Claims(z, h)
  {
  }

  lemma UncacheForgetShrinks(z: Slots, z3: Slots, h: Hash, owned: seq<(ReqId, Hash)>, x: Slot)
    requires var z2 := z.(owned := owned, refcount := z.refcount - {h});
      z3 == Uncache(z2, x) && ClaimsShrink(z2, z3) && Claims(z3, h) == 0
    ensures ClaimsShrink(z, z3)
  {
    ClaimsOnlyShared(z, z.(owned := owned, refcount := z.refcount - {h}));
    hide Claims;
  }

  // ---------- Evicting preload copies ----------

  lemma EvictSharedSound(z: Slots, m: map<Slot, Hash>, rest: multiset<Token>)
    requires SlotSound(z, m, rest)
    ensures var (z', evicted) := EvictShared(z);
      && SlotSound(z', m, rest) && ClaimsShrink(z, z')
      && (evicted ==> z'.free != [])
      && (!evicted ==> z' == z && forall x :: x in z.sharedCached ==> x in z.shared && z.shared[x].copies > 0)
  {
    hide SlotSound, ClaimsShrink, Claims, Uncache, Release, HasTokens, ForgetDemand;
    ClaimableAreShared(z, m, rest);
    ShrinkSelf(z);
    if FirstIdle(z, 0) < |z.sharedCached| { EvictIdleSound(z, m, rest, z.sharedCached[FirstIdle(z, 0)]); }
  }

  lemma ForgetDemandSound(z: Slots, m: map<Slot, Hash>, rest: multiset<Token>, h: Hash)
    requires SlotSound(z, m, rest)
    ensures SlotSound(ForgetDemand(z, h), m, rest)
  {
    hide SlotSound, DemandCounted, PurgeOwned;
    if z.cfg.sharePreload {
      CountedNow(z, m, rest);
      ForgottenCounts(z.owned, z.refcount, h);
    }
    DemandFieldsUnseen(z, m, rest, PurgeOwned(z.owned, h), z.refcount - {h});
  }

  lemma EvictIdleSound(z: Slots, m: map<Slot, Hash>, rest: multiset<Token>, x: Slot)
    requires SlotSound(z, m, rest) && x in z.sharedCached && x in z.shared && z.shared[x].copies <= 0
    ensures var z2 := ForgetDemand(Uncache(z, x), z.shared[x].hash);
      var z' := Release(z2.(shared := z2.shared - {x}), x);
      SlotSound(z', m, rest) && ClaimsShrink(z, z') && z'.free != []
  {
    hide SlotSound, ClaimsShrink, Claims, Uncache, Release, HasTokens, PurgeOwned;
    var h := z.shared[x].hash;
    UncacheSound(z, m, rest, x);
    var z1 := Uncache(z, x);
    var z2 := ForgetDemand(z1, h);
    ForgetDemandSound(z1, m, rest + multiset{THandle(x)}, h);
    ForgetShrinks(z, z1, h, PurgeOwned(z1.owned, h));
    DropSharedSound(z2, m, rest, x);
    var z3 := z2.(shared := z2.shared - {x});
    ReleaseHasSound(z3, m, rest, h, x);
    ShrinkTwice(z, z2, z3);
    ShrinkTwice(z, z3, Release(z3, x));
  }

  lemma ClaimableAreShared(z: Slots, m: map<Slot, Hash>, rest: multiset<Token>)
    requires SlotSound(z, m, rest)
    ensures forall x :: x in z.sharedCached ==> x in z.shared
  {
    hide SlotsTotal, SC.Agree;
  }

  lemma PreloadDropTokens(z: Slots, k: nat)
    requires k < |z.preload|
    ensures SlotsTotal(z) == SlotsTotal(z.(preload := RemoveAt(z.preload, k), cachedTotal := z.cachedTotal - 1))
                             + HasTokens(z.preload[k].slot, z.preload[k].info.hash)
  {
    hide Flat, Sum;
    FlatRemove(z.preload, k, StagedTokens);
  }

  lemma PreloadDropPart(z: Slots, m: map<Slot, Hash>, t: multiset<Token>, k: nat)
    requires SlotPart(z, m, t) && k < |z.preload|
    ensures var z' := z.(preload := RemoveAt(z.preload, k), cachedTotal := z.cachedTotal - 1);
      SlotPart(z', m, t) && ClaimsShrink(z, z')
  {
    hide SC.Agree, SlotsOwned, BytesRight;
  }

  /** A private copy leaves the table. */
  lemma PreloadDropSound(z: Slots, m: map<Slot, Hash>, rest: multiset<Token>, k: nat)
    requires SlotSound(z, m, rest) && k < |z.preload|
    ensures var z' := z.(preload := RemoveAt(z.preload, k), cachedTotal := z.cachedTotal - 1);
      SlotSound(z', m, rest + HasTokens(z.preload[k].slot, z.preload[k].info.hash)) && ClaimsShrink(z, z')
  {
    hide SlotsTotal, SlotPart, ClaimsShrink, HasTokens;
    PreloadDropTokens(z, k);
    PreloadDropPart(z, m, SlotsTotal(z) + rest, k);
    var z', e := z.(preload := RemoveAt(z.preload, k), cachedTotal := z.cachedTotal - 1), HasTokens(z.preload[k].slot, z.preload[k].info.hash);
    assert SlotsTotal(z) + rest == SlotsTotal(z') + (rest + e);
  }

  /** No preload copy can be evicted. */
  ghost predicate PreloadBusy(z: Slots) {
    && (z.cfg.sharePreload ==> forall x :: x in z.sharedCached ==> x in z.shared && z.shared[x].copies > 0)
    && (!z.cfg.sharePreload ==> z.preload == [])
  }

  lemma EvictPreloadSound(z: Slots, m: map<Slot, Hash>, rest: multiset<Token>)
    requires SlotSound(z, m, rest)
    ensures var (z', evicted) := EvictPreload(z);
      && SlotSound(z', m, rest) && ClaimsShrink(z, z')
      && (evicted ==> z'.free != [])
      && (!evicted ==> z' == z && PreloadBusy(z))
  {
    hide SlotSound, ClaimsShrink, EvictShared, Release, HasTokens;
    ShrinkSelf(z);
    if z.cfg.sharePreload {
      EvictSharedSound(z, m, rest);
    } else if z.preload != [] {
      assert RemoveAt(z.preload, 0) == z.preload[1..];
      PreloadDropSound(z, m, rest, 0);
      var z1 := z.(preload := z.preload[1..], cachedTotal := z.cachedTotal - 1);
      ReleaseHasSound(z1, m, rest, z.preload[0].info.hash, z.preload[0].slot);
      ShrinkTwice(z, z1, Release(z1, z.preload[0].slot));
    }
  }

  // ---------- Reservation ----------

  /** Every slot that is not free is kept by something that will complete. */
  ghost predicate AllBusy(z: Slots) {
    && z.free == []
    && (z.cfg.hasCache ==> forall h :: h in z.cache.slots ==> z.cache.slots[h].copies > 0)
    && PreloadBusy(z)
  }

  /** A foreground reservation yields a slot nobody else holds, or there is nothing it could evict. */
  lemma ReserveForegroundSound(z: Slots, m: map<Slot, Hash>, rest: multiset<Token>)
    requires SlotSound(z, m, rest)
    ensures var (z', x) := ReserveForeground(z);
      && ClaimsShrink(z, z')
      && (x.Some? ==> SlotSound(z', m, rest + BlankTokens(x.value)))
      && (x.None? ==> z' == z && AllBusy(z))
  {
    hide SlotSound, ClaimsShrink, EvictCacheSlot, EvictPreload, TryReserve, BlankTokens;
    ShrinkSelf(z);
    if z.free != [] {
      TryReserveSound(z, m, rest);
    } else {
      EvictCacheSlotSound(z, m, rest);
      var (z1, evicted) := EvictCacheSlot(z);
      if evicted {
        TryReserveSound(z1, m, rest);
        ShrinkTwice(z, z1, TryReserve(z1).0);
      } else {
        EvictPreloadSound(z, m, rest);
        var (z2, evicted2) := EvictPreload(z);
        if evicted2 {
          TryReserveSound(z2, m, rest);
          ShrinkTwice(z, z2, TryReserve(z2).0);
        }
      }
    }
  }

  lemma ReservePreloadSound(z: Slots, m: map<Slot, Hash>, rest: multiset<Token>)
    requires SlotSound(z, m, rest)
    ensures var (z', x) := ReservePreload(z);
      && ClaimsShrink(z, z')
      && (x.Some? ==> SlotSound(z', m, rest + BlankTokens(x.value)))
      && (x.None? ==> SlotSound(z', m, rest))
  {
    hide SlotSound, ClaimsShrink, EvictCacheSlot, TryReserve, BlankTokens;
    ShrinkSelf(z);
    if z.free != [] {
      TryReserveSound(z, m, rest);
    } else {
      EvictCacheSlotSound(z, m, rest);
      var (z1, evicted) := EvictCacheSlot(z);
      if evicted {
        TryReserveSound(z1, m, rest);
        ShrinkTwice(z, z1, TryReserve(z1).0);
      }
    }
  }

  // ---------- New preload copies ----------

  /** A slot that a step holds is no shared slot object. */
  lemma HeldIsNotShared(z: Slots, m: map<Slot, Hash>, rest: multiset<Token>, x: Slot, h: Hash)
    requires SlotSound(z, m, rest + HasTokens(x, h))
    ensures x !in z.shared
  {
    hide SlotsTotal, SC.Agree;
    SharedCounts(z, x);
  }

  lemma SharedCounts(z: Slots, x: Slot)
    ensures x in z.shared ==> SlotsTotal(z)[TSlot(x)] >= 1
  {
    hide Flat, Sum;
    if x in z.shared { SumHas(z.shared, x, SharedTokens); }
  }

  function NewShared(z: Slots, x: Slot, h: Hash): Slots {
    z.(shared := z.shared[x := SharedSlot(h, 0, false)])
  }

  lemma NewSharedTokens(z: Slots, x: Slot, h: Hash)
    requires x !in z.shared
    ensures SlotsTotal(NewShared(z, x, h)) == SlotsTotal(z) + HasTokens(x, h)
  {
    hide Flat, Sum;
    SumAdd(z.shared, x, SharedSlot(h, 0, false), SharedTokens);
  }

  lemma NewSharedPart(z: Slots, m: map<Slot, Hash>, t: multiset<Token>, x: Slot, h: Hash)
    requires SlotPart(z, m, t) && x !in z.shared && THandle(x) in t && z.cfg.sharePreload
    ensures SlotPart(NewShared(z, x, h), m, t) && ClaimsShrink(z, NewShared(z, x, h))
  {
    OneEachKept(z.sharedCached, z.shared, NewShared(z, x, h).shared);
    hide SC.Agree, SlotsOwned, BytesRight;
  }

  /** A finished shared read makes an object for its slot. */
  lemma NewSharedSound(z: Slots, m: map<Slot, Hash>, rest: multiset<Token>, x: Slot, h: Hash)
    requires SlotSound(z, m, rest + HasTokens(x, h)) && z.cfg.sharePreload
    ensures SlotSound(NewShared(z, x, h), m, rest + multiset{THandle(x)}) && ClaimsShrink(z, NewShared(z, x, h))
  {
    HeldIsNotShared(z, m, rest, x, h);
    TakeHandle(z, m, rest + HasTokens(x, h), x);
    hide SlotsTotal, SlotPart, ClaimsShrink, HasTokens;
    NewSharedPart(z, m, SlotsTotal(z) + (rest + HasTokens(x, h) + multiset{THandle(x)}), x, h);
    NewSharedTokens(z, x, h);
    assert SlotsTotal(z) + (rest + HasTokens(x, h) + multiset{THandle(x)})
        == SlotsTotal(NewShared(z, x, h)) + (rest + multiset{THandle(x)});
  }

  lemma InstallPart(z: Slots, m: map<Slot, Hash>, t: multiset<Token>, x: Slot)
    requires SlotPart(z, m, t) && x in z.shared && !z.shared[x].cached && Claimable(z, z.shared[x].hash).None?
    ensures SlotPart(Install(z, x), m, t)
    ensures Install(z, x).sharedCached == z.sharedCached + [x]
  {
    InstallOneEach(z, x);
    hide SC.Agree, SlotsOwned, BytesRight, Claimable;
  }

  lemma InstallOneEach(z: Slots, x: Slot)
    requires OneEach(z.sharedCached, z.shared)
    requires x in z.shared && Claimable(z, z.shared[x].hash).None?
    ensures OneEach(z.sharedCached + [x], z.shared[x := z.shared[x].(cached := true)])
  {
    assert x !in z.sharedCached;
  }

  lemma InstallClaims(z: Slots, z': Slots, x: Slot)
    requires x in z.shared && z'.sharedCached == z.sharedCached + [x] && z'.shared == z.shared[x := z.shared[x].(cached := true)]
    ensures forall h: Hash :: Claims(z', h) == if h == z.shared[x].hash then 1 else Claims(z, h)
  {
    assert x in z'.sharedCached;
    forall h: Hash ensures IsCached(z, h) ==> IsCached(z', h) {
      if IsCached(z, h) {
        var y :| y in z.sharedCached && y in z.shared && z.shared[y].hash == h;
        assert y in z'.sharedCached && z'.shared[y].hash == h;
      }
    }
  }

  /** A shared slot becomes claimable; no other was for its hash. */
  lemma InstallSound(z: Slots, m: map<Slot, Hash>, rest: multiset<Token>, x: Slot)
    requires SlotSound(z, m, rest + multiset{THandle(x)})
    requires x in z.shared && !z.shared[x].cached && Claims(z, z.shared[x].hash) == 0
    ensures SlotSound(Install(z, x), m, rest)
    ensures forall h: Hash :: Claims(Install(z, x), h) == if h == z.shared[x].hash then 1 else Claims(z, h)
  {
    hide SlotsTotal, SlotPart, SlotSound, Claims, Claimable;
    ClaimableMeansClaimed(z, m, rest + multiset{THandle(x)}, z.shared[x].hash);
    InstallOneSound(z, m, rest, x);
    InstallClaims(z, Install(z, x), x);
  }

  lemma InstallOneSound(z: Slots, m: map<Slot, Hash>, rest: multiset<Token>, x: Slot)
    requires SlotSound(z, m, rest + multiset{THandle(x)})
    requires x in z.shared && !z.shared[x].cached && Claimable(z, z.shared[x].hash).None?
    ensures SlotSound(Install(z, x), m, rest) && Install(z, x).sharedCached == z.sharedCached + [x]
  {
    hide SlotsTotal, SlotPart, Claimable;
    InstallPart(z, m, SlotsTotal(z) + (rest + multiset{THandle(x)}), x);
    var z' := Install(z, x);
    SharedUpdateTokens(z, x, z.shared[x].(cached := true), z'.sharedCached, z'.cachedTotal);
    LeaveHandle(z', m, rest, x);
  }

  lemma PreloadPushPart(z: Slots, m: map<Slot, Hash>, t: multiset<Token>, x: Slot, info: Info)
    requires SlotPart(z, m, t) && !z.cfg.sharePreload
    ensures SlotPart(PreloadPush(z, x, info), m, t)
    ensures forall h: Hash :: Claims(PreloadPush(z, x, info), h) == Claims(z, h)
  {
    hide SC.Agree, SlotsOwned, BytesRight, PreloadEnd;
  }

  lemma PreloadPushTokens(z: Slots, x: Slot, info: Info)
    ensures SlotsTotal(PreloadPush(z, x, info)) == SlotsTotal(z) + HasTokens(x, info.hash)
  {
    hide Flat, Sum, PreloadEnd;
    FlatInsert(z.preload, PreloadEnd(z.preload, info.hash), Staged(x, info), StagedTokens);
  }

  /** A private copy joins the table. */
  lemma PreloadPushSound(z: Slots, m: map<Slot, Hash>, rest: multiset<Token>, x: Slot, info: Info)
    requires SlotSound(z, m, rest + HasTokens(x, info.hash)) && !z.cfg.sharePreload
    ensures SlotSound(PreloadPush(z, x, info), m, rest)
    ensures forall h: Hash :: Claims(PreloadPush(z, x, info), h) == Claims(z, h)
  {
    hide SlotsTotal, SlotPart, PreloadPush, Claims, HasTokens;
    PreloadPushPart(z, m, SlotsTotal(z) + (rest + HasTokens(x, info.hash)), x, info);
    PreloadPushTokens(z, x, info);
    assert SlotsTotal(z) + (rest + HasTokens(x, info.hash)) == SlotsTotal(PreloadPush(z, x, info)) + rest;
  }

  // ---------- Cache hits and settling ----------

  lemma CopiesTokens(z: Slots, h: Hash, n: int)
    ensures SlotsTotal(z.(cache := SC.AddCopies(z.cache, h, n))) == SlotsTotal(z)
  {
    hide Flat, Sum;
    if h in z.cache.slots {
      var e := z.cache.slots[h].(copies := z.cache.slots[h].copies + n);
      SumUpdate(z.cache.slots, h, e, CacheTokens);
      var a, b := Sum(z.cache.slots, CacheTokens), Sum(z.cache.slots[h := e], CacheTokens);
      assert b + CacheTokens(h, e) - CacheTokens(h, e) == b;
      assert a + CacheTokens(h, e) - CacheTokens(h, e) == a;
    }
  }

  lemma PinPart(z: Slots, m: map<Slot, Hash>, t: multiset<Token>, h: Hash)
    requires SlotPart(z, m, t) && h in z.cache.slots
    ensures SlotPart(z.(cache := SC.Pin(z.cache, h)), m, t + multiset{TPin(h, z.cache.slots[h].slotIndex)})
    ensures ClaimsShrink(z, z.(cache := SC.Pin(z.cache, h)))
  {
    SC.PinAgrees(z.cache, h, 1);
    hide SC.Agree, SlotsOwned, BytesRight;
  }

  lemma PinSound(z: Slots, m: map<Slot, Hash>, rest: multiset<Token>, h: Hash)
    requires SlotSound(z, m, rest) && h in z.cache.slots
    ensures SlotSound(z.(cache := SC.Pin(z.cache, h)), m, rest + multiset{TPin(h, z.cache.slots[h].slotIndex)})
    ensures ClaimsShrink(z, z.(cache := SC.Pin(z.cache, h)))
  {
    hide SlotsTotal, SlotPart, ClaimsShrink;
    PinPart(z, m, SlotsTotal(z) + rest, h);
    CopiesTokens(z, h, 1);
    var e := multiset{TPin(h, z.cache.slots[h].slotIndex)};
    assert SlotsTotal(z) + rest + e == SlotsTotal(z) + (rest + e);
  }

  lemma UnpinPart(z: Slots, m: map<Slot, Hash>, t: multiset<Token>, h: Hash, x: Slot)
    requires SlotPart(z, m, t) && TPin(h, x) in t
    ensures SlotPart(z.(cache := SC.Unpin(z.cache, h)), m, t - multiset{TPin(h, x)})
    ensures ClaimsShrink(z, z.(cache := SC.Unpin(z.cache, h)))
  {
    SC.PinAgrees(z.cache, h, -1);
    hide SC.Agree;
  }

  lemma UnpinSound(z: Slots, m: map<Slot, Hash>, rest: multiset<Token>, h: Hash, x: Slot)
    requires SlotSound(z, m, rest + multiset{TPin(h, x)})
    ensures SlotSound(z.(cache := SC.Unpin(z.cache, h)), m, rest)
    ensures ClaimsShrink(z, z.(cache := SC.Unpin(z.cache, h)))
  {
    hide SlotsTotal, SlotPart, ClaimsShrink;
    UnpinPart(z, m, SlotsTotal(z) + (rest + multiset{TPin(h, x)}), h, x);
    CopiesTokens(z, h, -1);
    assert SlotsTotal(z) + (rest + multiset{TPin(h, x)}) - multiset{TPin(h, x)} == SlotsTotal(z) + rest;
  }

  /** A cache lookup only moves the entry in the policy's order. */
  lemma GetSound(z: Slots, m: map<Slot, Hash>, rest: multiset<Token>, h: Hash)
    requires SlotSound(z, m, rest)
    ensures SlotSound(z.(cache := SC.Get(z.cache, h).0), m, rest) && ClaimsShrink(z, z.(cache := SC.Get(z.cache, h).0))
  {
    hide SlotSound, ClaimsShrink, SC.Agree;
    CacheAgrees(z, m, rest);
    SC.GetAgrees(z.cache, h);
    CacheSameSound(z, m, rest, SC.Get(z.cache, h).0);
  }

  /** A copy that is over gives back what it held of its slot. */
  lemma SettleSound(z: Slots, m: map<Slot, Hash>, rest: multiset<Token>, c: LoadCopy)
    requires SlotSound(z, m, rest + SourceTokens(c))
    ensures SlotSound(SettleLoadSlot(z, c), m, rest) && ClaimsShrink(z, SettleLoadSlot(z, c))
  {
    hide SlotSound, ClaimsShrink, ReleaseOrCache, MaybeReleaseShared, AddCopies, SC.Unpin, HasTokens;
    match c.source
    case Cached => UnpinSound(z, m, rest, c.file.hash, c.slot);
    case Owned => ReleaseOrCacheSound(z, m, rest, c.file.hash, c.slot);
    case Shared =>
      DropCopySound(z, m, rest, c.slot, c.file.hash);
      MaybeReleaseSound(AddCopies(z, c.slot, -1), m, rest, c.slot);
      ShrinkTwice(z, AddCopies(z, c.slot, -1), MaybeReleaseShared(AddCopies(z, c.slot, -1), c.slot));
  }
}
