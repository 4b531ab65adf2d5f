/** Who holds which staging slot: reservation and eviction, private preload copies, shared slot objects
    and the retention cache (py_kvcache/reactor.py). */
module ReactorSlots {
  import opened Outcomes
  import opened OrderedKeys
  import opened ReactorState
  import SC = StagingCache

  function Release(z: Slots, x: Slot): Slots {
    if 0 <= x < z.cfg.slotCount then z.(free := z.free + [x]) else z
  }

  function TryReserve(z: Slots): (Slots, Option<Slot>) {
    if z.free == [] then (z, None) else (z.(free := z.free[..|z.free| - 1]), Some(z.free[|z.free| - 1]))
  }

  function EvictCacheSlot(z: Slots): (Slots, bool) {
    if !z.cfg.hasCache then (z, false)
    else
      var (c, freed) := SC.EvictOne(z.cache);
      if freed.None? then (z, false) else (Release(z.(cache := c), freed.value), true)
  }

  function PurgeOwned(owned: seq<(ReqId, Hash)>, h: Hash): seq<(ReqId, Hash)> {
    if owned == [] then []
    else PurgeOwned(owned[..|owned| - 1], h) + if owned[|owned| - 1].1 == h then [] else [owned[|owned| - 1]]
  }

  /** Takes a shared slot object out of the table of claimable ones. */
  function Uncache(z: Slots, x: Slot): Slots {
    if x !in z.shared then z
    else
      var z' := if x in z.sharedCached then z.(sharedCached := Without(z.sharedCached, x), cachedTotal := z.cachedTotal - 1)
                else z;
      z'.(shared := z'.shared[x := z'.shared[x].(cached := false)])
  }

  predicate Idle(z: Slots, x: Slot) { x in z.shared && z.shared[x].copies <= 0 }

  /** Position of the oldest claimable shared slot no copy reads from; past the end if there is none. */
  function FirstIdle(z: Slots, k: nat): (r: nat)
    requires k <= |z.sharedCached|
    ensures k <= r <= |z.sharedCached|
    ensures r < |z.sharedCached| ==> Idle(z, z.sharedCached[r])
    ensures forall i :: k <= i < r ==> !Idle(z, z.sharedCached[i])
    decreases |z.sharedCached| - k
  {
    if k == |z.sharedCached| || Idle(z, z.sharedCached[k]) then k else FirstIdle(z, k + 1)
  }

  function EvictShared(z: Slots): (Slots, bool) {
    var k := FirstIdle(z, 0);
    if k == |z.sharedCached| then (z, false)
    else
      var x := z.sharedCached[k];
      var h := z.shared[x].hash;
      var z2 := ForgetDemand(Uncache(z, x), h);
      (Release(z2.(shared := z2.shared - {x}), x), true)
  }

  function EvictPreload(z: Slots): (Slots, bool) {
    if z.cfg.sharePreload then EvictShared(z)
    else if z.preload == [] then (z, false)
    else (Release(z.(preload := z.preload[1..], cachedTotal := z.cachedTotal - 1), z.preload[0].slot), true)
  }

  /** The block's demand, whoever's it is, is dropped. */
  function ForgetDemand(z: Slots, h: Hash): Slots {
    z.(refcount := z.refcount - {h}, owned := PurgeOwned(z.owned, h))
  }

  /** A slot for a load or a store: a free one, else a cache entry's, else a preload copy's. */
  function ReserveForeground(z: Slots): (Slots, Option<Slot>) {
    if z.free != [] then TryReserve(z)
    else
      var (z1, evicted) := EvictCacheSlot(z);
      if evicted && z1.free != [] then TryReserve(z1)
      else
        var (z2, evicted2) := EvictPreload(z1);
        if evicted2 then TryReserve(z2) else (z2, None)
  }

  /** A slot for a speculative read: a free one, else a cache entry's. */
  function ReservePreload(z: Slots): (Slots, Option<Slot>) {
    if z.free != [] then TryReserve(z)
    else
      var (z1, evicted) := EvictCacheSlot(z);
      if evicted then TryReserve(z1) else (z1, None)
  }

  /** Keeps a slot's bytes in the cache if there is one and it wants them; otherwise frees a slot. */
  function ReleaseOrCache(z: Slots, h: Hash, x: Slot): Slots {
    if !z.cfg.hasCache then Release(z, x)
    else
      var (c, freed) := SC.Put(z.cache, h, x);
      if freed.None? then z.(cache := c) else Release(z.(cache := c), freed.value)
  }

  // ---------- Shared preload slots ----------

  /** The claimable shared slot of a hash, among those from position `k` on. */
  function ClaimableFrom(cached: seq<Slot>, shared: map<Slot, SharedSlot>, h: Hash, k: nat): (r: Option<Slot>)
    requires k <= |cached|
    ensures r.Some? ==> r.value in cached[k..] && r.value in shared && shared[r.value].hash == h
    ensures r.None? ==> forall i :: k <= i < |cached| ==> !(cached[i] in shared && shared[cached[i]].hash == h)
    decreases |cached| - k
  {
    if k == |cached| then None
    else if cached[k] in shared && shared[cached[k]].hash == h then Some(cached[k])
    else ClaimableFrom(cached, shared, h, k + 1)
  }

  function Claimable(z: Slots, h: Hash): Option<Slot> {
    ClaimableFrom(z.sharedCached, z.shared, h, 0)
  }

  function AddCopies(z: Slots, x: Slot, n: int): Slots {
    if x in z.shared then z.(shared := z.shared[x := z.shared[x].(copies := z.shared[x].copies + n)]) else z
  }

  /** Lets go of a shared slot object that is neither claimable nor being copied from. */
  function MaybeReleaseShared(z: Slots, x: Slot): Slots {
    if x !in z.shared || z.shared[x].cached || z.shared[x].copies > 0 then z
    else ReleaseOrCache(z.(shared := z.shared - {x}), z.shared[x].hash, x)
  }

  /** The request's demand for the block is met or withdrawn; the last demand lets the slot go. */
  function Decref(z: Slots, r: ReqId, h: Hash): Slots {
    if (r, h) !in z.owned then z
    else
      var z1 := z.(owned := Without(z.owned, (r, h)));
      if Count(z1.refcount, h) > 1 then z1.(refcount := z1.refcount[h := z1.refcount[h] - 1])
      else
        var z2 := z1.(refcount := z1.refcount - {h});
        var x := Claimable(z2, h);
        if x.None? then z2 else MaybeReleaseShared(Uncache(z2, x.value), x.value)
  }

  /** The slot becomes claimable; a dictionary keeps the place of a key it already has. */
  function Install(z: Slots, x: Slot): Slots
    requires x in z.shared
  {
    var prior := Claimable(z, z.shared[x].hash);
    var cached := if prior.Some? then Replace(z.sharedCached, prior.value, x) else z.sharedCached + [x];
    z.(shared := z.shared[x := z.shared[x].(cached := true)], sharedCached := cached, cachedTotal := z.cachedTotal + 1)
  }

  function Replace(xs: seq<Slot>, y: Slot, x: Slot): seq<Slot> {
    if xs == [] then [] else [if xs[0] == y then x else xs[0]] + Replace(xs[1..], y, x)
  }

  /** A slot whose block is still wanted becomes claimable; otherwise it may go. */
  function KeepOrRelease(z: Slots, h: Hash, x: Slot): Slots {
    if Count(z.refcount, h) > 0 && x in z.shared then Install(z, x) else MaybeReleaseShared(z, x)
  }

  // ---------- Private preload copies ----------

  /** Position behind the last private copy of the hash, or the end: copies of one hash stay together. */
  function PreloadEnd(ps: seq<Staged>, h: Hash): (k: nat)
    ensures k <= |ps|
  {
    if ps == [] then 0
    else if ps[|ps| - 1].info.hash == h || PreloadIndex(ps[..|ps| - 1], h) == |ps| - 1 then |ps|
    else PreloadEnd(ps[..|ps| - 1], h)
  }

  /** Position of the oldest private copy of the hash; past the end if there is none. */
  function PreloadIndex(ps: seq<Staged>, h: Hash): (k: nat)
    ensures k <= |ps|
    ensures k < |ps| ==> ps[k].info.hash == h
    ensures forall i :: 0 <= i < k ==> ps[i].info.hash != h
  {
    if ps == [] then 0
    else
      var k := PreloadIndex(ps[..|ps| - 1], h);
      if k < |ps| - 1 || ps[|ps| - 1].info.hash == h then k else |ps|
  }

  function PreloadPush(z: Slots, x: Slot, info: Info): Slots {
    var k := PreloadEnd(z.preload, info.hash);
    z.(preload := z.preload[..k] + [Staged(x, info)] + z.preload[k..], cachedTotal := z.cachedTotal + 1)
  }

  function PreloadPop(z: Slots, h: Hash): (Slots, Option<Staged>) {
    var k := PreloadIndex(z.preload, h);
    if k == |z.preload| then (z, None)
    else (z.(preload := RemoveAt(z.preload, k), cachedTotal := z.cachedTotal - 1), Some(z.preload[k]))
  }

  lemma PreloadPopIs(z: Slots, h: Hash)
    ensures PreloadPop(z, h).1.None? ==> PreloadPop(z, h).0 == z
  {
  }

  predicate HasPrivateCopy(z: Slots, h: Hash) { PreloadIndex(z.preload, h) < |z.preload| }
}
