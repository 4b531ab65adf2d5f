/** The I/O reactor object of py_kvcache/reactor.py. Its methods update its fields, its slot pool and its cache
    in place; each is proved to do what the function of Reactor or ReactorSlots says, and its loops to be
    runs of the state machine. Results of foreign calls are arguments, or arbitrary inside loops. */
module ReactorObject {
  import opened Outcomes
  import opened OrderedKeys
  import opened ReactorState
  import Z = ReactorSlots
  import R = Reactor
  import SC = StagingCache
  import SP = StagingPool
  import SO = StagingCacheObjects
  import Safety = ReactorTokens
  import Runs = ReactorRuns
  import Moves = ReactorMoves
  import Theorems = ReactorTheorems
  import P = ReactorProgress
  import T = ReactorTurns

  class IoReactor {
    const cfg: Config
    const pool: SP.Pool
    const cache: SO.StagingDataCache

    var jobs: seq<Job>
    var active: seq<JobId>
    ghost var log: seq<FileEnd>

    var inflight: map<nat, Op>
    var nextUd: nat
    var dataInflight: int
    var openInflight: int
    var readyLoad: seq<FileRef>
    var readyPreload: seq<Info>
    var copyReady: seq<LoadCopy>
    var pendingCopies: seq<Copy>

    var preload: seq<Staged>
    var cachedTotal: int
    var shared: map<Slot, SharedSlot>
    var sharedCached: seq<Slot>
    var owned: seq<(ReqId, Hash)>
    var refcount: map<Hash, int>

    var pending: seq<Info>
    var pendingCount: map<Hash, int>
    var pendingCancel: map<Hash, int>
    var inflightHashes: map<Hash, int>
    var inflightTotal: int
    var storeInflight: map<Hash, int>
    var blocked: map<Hash, seq<Info>>
    var missing: map<Hash, seq<Info>>
    var missingOrder: seq<Hash>

    var waiters: seq<FileRef>
    ghost var memory: map<Slot, Hash>

    ghost function Repr(): set<object> { {this, pool, cache, cache.lru, cache.arc} }

    ghost function WorkNow(): Work reads this`jobs, this`active, this`log { Work(jobs, active, log) }

    ghost function RingNow(): Ring
      reads this`inflight, this`nextUd, this`dataInflight, this`openInflight
      reads this`readyLoad, this`readyPreload, this`copyReady, this`pendingCopies
    {
      Ring(inflight, nextUd, dataInflight, openInflight, readyLoad, readyPreload, copyReady, pendingCopies)
    }

    ghost function SlotsNow(): Slots
      reads pool, cache, cache.lru, cache.arc
      reads this`preload, this`cachedTotal, this`shared, this`sharedCached, this`owned, this`refcount
    {
      Slots(cfg, pool.free, cache.Value(), preload, cachedTotal, shared, sharedCached, owned, refcount)
    }

    ghost function DemandNow(): Demand
      reads this`pending, this`pendingCount, this`pendingCancel, this`inflightHashes, this`inflightTotal
      reads this`storeInflight, this`blocked, this`missing, this`missingOrder
    {
      Demand(pending, pendingCount, pendingCancel, inflightHashes, inflightTotal, storeInflight, blocked, missing, missingOrder)
    }

    /** The state of the machine that this object is in. */
    ghost function St(): State reads Repr() {
      State(WorkNow(), RingNow(), SlotsNow(), DemandNow(), waiters, memory)
    }

    ghost predicate Valid() reads Repr() {
      !pool.closed && pool.slotCount == cfg.slotCount
    }

    /** The object is in state `s`. */
    ghost predicate Models(s: State) reads Repr() {
      && WorkNow() == s.work && RingNow() == s.ring && SlotsNow() == s.slots && DemandNow() == s.demand
      && waiters == s.waiters && memory == s.memory
    }

    lemma ModelsOne(s: State)
      requires Models(s)
      ensures St() == s
    {
    }

    constructor (cfg: Config, isLru: bool)
      requires cfg.slotCount > 0
      ensures Valid() && fresh(Repr()) && this.cfg == cfg
      ensures St() == R.Initial(cfg, if isLru then SC.EmptyLruCache(cfg.MaxPreloadSlots()) else SC.EmptyArcCache(cfg.MaxPreloadSlots()))
    {
      this.cfg := cfg;
      pool := new SP.Pool(cfg.slotCount);
      cache := new SO.StagingDataCache(isLru, cfg.MaxPreloadSlots());
      jobs, active, log := [], [], [];
      inflight, nextUd, dataInflight, openInflight := map[], 1, 0, 0;
      readyLoad, readyPreload, copyReady, pendingCopies := [], [], [], [];
      preload, cachedTotal, shared, sharedCached, owned, refcount := [], 0, map[], [], [], map[];
      pending, pendingCount, pendingCancel, inflightHashes, inflightTotal := [], map[], map[], map[], 0;
      storeInflight, blocked, missing, missingOrder := map[], map[], map[], [];
      waiters, memory := [], map[];
      new;
      assert pool.free == seq(cfg.slotCount, i => i);
    }

    // ---------- Slots ----------

    method TryReserve() returns (x: Option<Slot>)
      requires Valid()
      modifies pool
      ensures Valid()
      ensures SlotsNow() == Z.TryReserve(old(SlotsNow())).0 && x == Z.TryReserve(old(SlotsNow())).1
    {
      var r := pool.TryReserve();
      x := r.value;
    }

    method Release(x: Slot)
      requires Valid()
      modifies pool
      ensures Valid()
      ensures SlotsNow() == Z.Release(old(SlotsNow()), x)
    {
      var _ := pool.Release(x);
    }

    method EvictOneCacheSlot() returns (evicted: bool)
      requires Valid()
      modifies pool, cache, cache.lru, cache.arc
      modifies this`preload, this`cachedTotal, this`shared, this`sharedCached, this`owned, this`refcount
      ensures Valid()
      ensures SlotsNow() == Z.EvictCacheSlot(old(SlotsNow())).0 && evicted == Z.EvictCacheSlot(old(SlotsNow())).1
    {
      if !cfg.hasCache { return false; }
      var x := cache.EvictOne();
      if x.None? {
        SC.EvictNoneKeeps(old(cache.Value()));
        return false;
      }
      Release(x.value);
      evicted := true;
    }

    method SharedUncache(x: Slot)
      requires Valid()
      modifies this`shared, this`sharedCached, this`cachedTotal
      ensures Valid()
      ensures SlotsNow() == Z.Uncache(old(SlotsNow()), x)
    {
      hide Without;
      if x in shared {
        if x in sharedCached { sharedCached, cachedTotal := Without(sharedCached, x), cachedTotal - 1; }
        shared := shared[x := shared[x].(cached := false)];
      }
    }

    method PurgeOwnedForHash(h: Hash)
      modifies this`owned
      ensures SlotsNow() == old(SlotsNow()).(owned := Z.PurgeOwned(old(owned), h))
    {
      var keep := [];
      for i := 0 to |owned|
        invariant keep == Z.PurgeOwned(owned[..i], h)
      {
        assert owned[..i + 1][..i] == owned[..i];
        if owned[i].1 != h { keep := keep + [owned[i]]; }
      }
      assert owned[..|owned|] == owned;
      owned := keep;
    }

    method EvictOneSharedSlot() returns (evicted: bool)
      requires Valid()
      modifies pool, cache, cache.lru, cache.arc
      modifies this`preload, this`cachedTotal, this`shared, this`sharedCached, this`owned, this`refcount
      ensures Valid()
      ensures SlotsNow() == Z.EvictShared(old(SlotsNow())).0 && evicted == Z.EvictShared(old(SlotsNow())).1
    {
      hide Z.Uncache, Z.Release, Z.PurgeOwned;
      for k := 0 to |sharedCached|
        invariant SlotsNow() == old(SlotsNow()) && Valid()
        invariant Z.FirstIdle(SlotsNow(), 0) == Z.FirstIdle(SlotsNow(), k)
      {
        var x := sharedCached[k];
        if x !in shared || shared[x].copies > 0 { continue; }
        var h := shared[x].hash;
        SharedUncache(x);
        refcount := refcount - {h};
        PurgeOwnedForHash(h);
        shared := shared - {x};
        Release(x);
        return true;
      }
      evicted := false;
    }

    method EvictOnePreloadSlot() returns (evicted: bool)
      requires Valid()
      modifies pool, cache, cache.lru, cache.arc
      modifies this`preload, this`cachedTotal, this`shared, this`sharedCached, this`owned, this`refcount
      ensures Valid()
      ensures SlotsNow() == Z.EvictPreload(old(SlotsNow())).0 && evicted == Z.EvictPreload(old(SlotsNow())).1
    {
      if cfg.sharePreload {
        evicted := EvictOneSharedSlot();
        return;
      }
      if preload == [] { return false; }
      var x := preload[0].slot;
      preload := preload[1..];
      cachedTotal := cachedTotal - 1;
      Release(x);
      evicted := true;
    }

    method ReserveForegroundSlot() returns (x: Option<Slot>)
      requires Valid()
      modifies pool, cache, cache.lru, cache.arc
      modifies this`preload, this`cachedTotal, this`shared, this`sharedCached, this`owned, this`refcount
      ensures Valid()
      ensures SlotsNow() == Z.ReserveForeground(old(SlotsNow())).0 && x == Z.ReserveForeground(old(SlotsNow())).1
    {
      hide Z.EvictCacheSlot, Z.EvictPreload;
      x := TryReserve();
      if x.None? {
        var evicted := EvictOneCacheSlot();
        if evicted { x := TryReserve(); }
      }
      if x.None? {
        var evicted := EvictOnePreloadSlot();
        if evicted { x := TryReserve(); }
      }
    }

    method ReservePreloadSlot() returns (x: Option<Slot>)
      requires Valid()
      modifies pool, cache, cache.lru, cache.arc
      modifies this`preload, this`cachedTotal, this`shared, this`sharedCached, this`owned, this`refcount
      ensures Valid()
      ensures SlotsNow() == Z.ReservePreload(old(SlotsNow())).0 && x == Z.ReservePreload(old(SlotsNow())).1
    {
      hide Z.EvictCacheSlot;
      x := TryReserve();
      if x.None? {
        var evicted := EvictOneCacheSlot();
        if evicted { x := TryReserve(); }
      }
    }

    method ReleaseOrCache(h: Hash, x: Slot)
      requires Valid()
      modifies pool, cache, cache.lru, cache.arc
      modifies this`preload, this`cachedTotal, this`shared, this`sharedCached, this`owned, this`refcount
      ensures Valid()
      ensures SlotsNow() == Z.ReleaseOrCache(old(SlotsNow()), h, x)
    {
      if !cfg.hasCache {
        Release(x);
        return;
      }
      var freed := cache.Put(h, x);
      if freed.Some? { Release(freed.value); }
    }

    method MaybeReleaseShared(x: Slot)
      requires Valid()
      modifies pool, cache, cache.lru, cache.arc
      modifies this`preload, this`cachedTotal, this`shared, this`sharedCached, this`owned, this`refcount
      ensures Valid()
      ensures SlotsNow() == Z.MaybeReleaseShared(old(SlotsNow()), x)
    {
      if x !in shared || shared[x].cached || shared[x].copies > 0 { return; }
      var h := shared[x].hash;
      shared := shared - {x};
      ReleaseOrCache(h, x);
    }

    method SharedDecref(r: ReqId, h: Hash)
      requires Valid()
      modifies pool, cache, cache.lru, cache.arc
      modifies this`preload, this`cachedTotal, this`shared, this`sharedCached, this`owned, this`refcount
      ensures Valid()
      ensures SlotsNow() == Z.Decref(old(SlotsNow()), r, h)
    {
      hide Z.MaybeReleaseShared, Z.Uncache, Z.ClaimableFrom;
      if (r, h) !in owned { return; }
      owned := Without(owned, (r, h));
      var count := Count(refcount, h);
      if count > 1 {
        refcount := refcount[h := count - 1];
        return;
      }
      refcount := refcount - {h};
      var x := Z.ClaimableFrom(sharedCached, shared, h, 0);
      if x.Some? {
        SharedUncache(x.value);
        MaybeReleaseShared(x.value);
      }
    }

    method AddCopies(x: Slot, n: int)
      requires Valid()
      modifies this`shared
      ensures Valid()
      ensures SlotsNow() == Z.AddCopies(old(SlotsNow()), x, n)
    {
      if x in shared { shared := shared[x := shared[x].(copies := shared[x].copies + n)]; }
    }

    method PreloadCachePush(x: Slot, info: Info)
      requires Valid()
      modifies this`preload, this`cachedTotal
      ensures Valid()
      ensures SlotsNow() == Z.PreloadPush(old(SlotsNow()), x, info)
    {
      var k := Z.PreloadEnd(preload, info.hash);
      preload := preload[..k] + [Staged(x, info)] + preload[k..];
      cachedTotal := cachedTotal + 1;
    }

    method PreloadCachePop(h: Hash) returns (e: Option<Staged>)
      requires Valid()
      modifies this`preload, this`cachedTotal
      ensures Valid()
      ensures SlotsNow() == Z.PreloadPop(old(SlotsNow()), h).0 && e == Z.PreloadPop(old(SlotsNow()), h).1
    {
      var k := Z.PreloadIndex(preload, h);
      if k == |preload| { return None; }
      e := Some(preload[k]);
      preload := RemoveAt(preload, k);
      cachedTotal := cachedTotal - 1;
    }

    // ---------- Jobs and the ring ----------

    method FileTerminal(f: FileRef, ok: bool)
      modifies this`jobs, this`log
      ensures WorkNow() == R.FileTerminal(old(WorkNow()), f, ok)
    {
      if f.job >= |jobs| { return; }
      var job := jobs[f.job];
      job := job.(inflight := job.inflight - 1);
      if ok { job := job.(done := job.done + 1); }
      if !job.futureSet {
        if !ok {
          job := job.(failed := true, futureSet := true, outcomes := job.outcomes + [Failed]);
        } else if job.done == |job.hashes| {
          job := job.(futureSet := true, outcomes := job.outcomes + [Succeeded]);
        }
      }
      jobs := jobs[f.job := job];
      log := log + [FileEnd(f, ok)];
    }

    method StartFile(j: JobId)
      requires j < |jobs|
      modifies this`jobs
      ensures WorkNow() == R.StartFile(old(WorkNow()), j)
    {
      jobs := jobs[j := jobs[j].(next := jobs[j].next + 1, inflight := jobs[j].inflight + 1)];
    }

    method NewUserData() returns (ud: nat)
      modifies this`nextUd
      ensures ud == old(nextUd) && RingNow() == R.Refused(old(RingNow()))
    {
      ud := nextUd;
      nextUd := nextUd + 1;
    }

    method Submit(op: Op)
      modifies this`inflight, this`nextUd
      ensures RingNow() == R.Submit(old(RingNow()), op)
    {
      var ud := NewUserData();
      inflight := inflight[ud := op];
    }

    method AsyncClose(queued: bool)
      modifies this`inflight, this`nextUd
      ensures RingNow() == R.AsyncClose(old(RingNow()), queued)
    {
      var ud := NewUserData();
      if queued { inflight := inflight[ud := Close]; }
    }

    method QueueLoadCopy(f: FileRef, x: Slot, source: Source)
      modifies this`copyReady
      ensures RingNow() == R.QueueLoadCopy(old(RingNow()), f, x, source)
    {
      copyReady := copyReady + [LoadCopy(f, x, source)];
    }

    // ---------- Preload demand ----------

    method PreloadInflightAdd(h: Hash)
      modifies this`inflightHashes, this`inflightTotal
      ensures DemandNow() == R.InflightAdd(old(DemandNow()), h)
    {
      inflightHashes := Raise(inflightHashes, h);
      inflightTotal := inflightTotal + 1;
    }

    method PreloadInflightRemove(h: Hash)
      modifies this`inflightHashes, this`inflightTotal
      ensures DemandNow() == R.InflightRemove(old(DemandNow()), h)
    {
      var count := Count(inflightHashes, h);
      if count <= 0 { return; }
      inflightTotal := inflightTotal - 1;
      if count == 1 {
        inflightHashes := inflightHashes - {h};
      } else {
        inflightHashes := inflightHashes[h := count - 1];
      }
    }

    method PendingPush(info: Info)
      modifies this`pending, this`pendingCount
      ensures DemandNow() == R.PendingPush(old(DemandNow()), info)
    {
      pending := pending + [info];
      pendingCount := Raise(pendingCount, info.hash);
    }

    method PendingPop()
      requires pending != []
      modifies this`pending, this`pendingCount
      ensures DemandNow() == R.PendingPop(old(DemandNow()))
    {
      pendingCount := Lower(pendingCount, pending[0].hash);
      pending := pending[1..];
    }

    method CancelOnePending(h: Hash) returns (cancelled: bool)
      modifies this`pendingCancel
      ensures DemandNow() == R.CancelOnePending(old(DemandNow()), h)
    {
      var live := Count(pendingCount, h) - Count(pendingCancel, h);
      if live <= 0 { return false; }
      pendingCancel := Raise(pendingCancel, h);
      cancelled := true;
    }

    method DropCancelled()
      requires pending != []
      modifies this`pending, this`pendingCount, this`pendingCancel
      ensures DemandNow() == R.DropCancelled(old(DemandNow()))
    {
      pendingCancel := Lower(pendingCancel, pending[0].hash);
      PendingPop();
    }

    method BlockOnWrite(h: Hash, infos: seq<Info>)
      modifies this`blocked
      ensures DemandNow() == R.BlockOnWrite(old(DemandNow()), h, infos)
    {
      blocked := blocked[h := (if h in blocked then blocked[h] else []) + infos];
    }

    method ForgetMissing(h: Hash)
      modifies this`missing, this`missingOrder
      ensures DemandNow() == R.ForgetMissing(old(DemandNow()), h)
    {
      missing := missing - {h};
      missingOrder := Without(missingOrder, h);
    }

    method AddMissing(info: Info)
      modifies this`missing, this`missingOrder
      ensures DemandNow() == R.AddMissing(old(DemandNow()), info)
    {
      missing := missing[info.hash := (if info.hash in missing then missing[info.hash] else []) + [info]];
      missingOrder := MoveToEnd(missingOrder, info.hash);
    }

    method RememberKnownMissing(info: Info)
      modifies this`missing, this`missingOrder
      ensures DemandNow() == R.RememberMissing(old(DemandNow()), info)
    {
      AddMissing(info);
      while |missingOrder| > MAX_KNOWN_MISSING
        invariant R.TrimMissing(DemandNow()) == R.RememberMissing(old(DemandNow()), info)
        decreases |missingOrder|
        modifies this`missing, this`missingOrder
      {
        missing := missing - {missingOrder[0]};
        missingOrder := missingOrder[1..];
      }
    }

    // ---------- Waiting files ----------

    method PreloadWaiterPop(h: Hash) returns (f: Option<FileRef>)
      modifies this`waiters
      ensures waiters == R.PopWaiter(old(St()), h).0.waiters && f == R.PopWaiter(old(St()), h).1
    {
      var k := R.WaiterIndex(waiters, h);
      if k == |waiters| { return None; }
      f := Some(waiters[k]);
      waiters := RemoveAt(waiters, k);
    }

    method FailAllPreloadWaiters(h: Hash) returns (failed: bool)
      modifies this`waiters, this`jobs, this`log
      ensures Models(R.FailWaiters(old(St()), h)) && (failed <==> R.HasWaiter(old(St()), h))
    {
      hide R.FailWaiters, R.PopWaiter, R.FileTerminal, R.HasWaiter, RingNow, DemandNow, SlotsNow;
      failed := false;
      ghost var target, some := R.FailWaiters(St(), h), R.HasWaiter(St(), h);
      while true
        invariant R.FailWaiters(St(), h) == target
        invariant some == (failed || R.HasWaiter(St(), h))
        decreases |waiters|
        modifies this`waiters, this`jobs, this`log
      {
        ghost var s := St();
        R.FailAllIs(s, h);
        R.PopWaiterIs(s, h);
        var f := PreloadWaiterPop(h);
        if f.None? {
          ModelsOne(s);
          break;
        }
        FileTerminal(f.value, false);
        ModelsOne(s.(waiters := R.PopWaiter(s, h).0.waiters, work := R.FileTerminal(s.work, f.value, false)));
        failed := true;
      }
    }

    method FailOnePreloadWaiter(h: Hash)
      modifies this`waiters, this`jobs, this`log
      ensures Models(R.FailOneWaiter(old(St()), h))
    {
      hide R.FailOneWaiter, R.PopWaiter, R.FileTerminal, RingNow, DemandNow, SlotsNow;
      ghost var s0 := St();
      var f := PreloadWaiterPop(h);
      if f.Some? { FileTerminal(f.value, false); }
      R.FailOneIs(s0, h);
      R.PopWaiterIs(s0, h);
    }

    // ---------- Stores and copies that end ----------

    method ReleaseStoreInflight(h: Hash, ok: bool)
      modifies this`storeInflight, this`blocked, this`pending, this`pendingCount, this`owned, this`refcount
      ensures Models(R.ReleaseStoreInflight(old(St()), h, ok))
    {
      hide R.WakeParked, RingNow, WorkNow, SlotsNow;
      ghost var s := St();
      var count := Count(storeInflight, h) - 1;
      storeInflight := Lower(storeInflight, h);
      if count <= 0 {
        var infos := if h in blocked then blocked[h] else [];
        blocked := blocked - {h};
        ModelsOne(s.(demand := s.demand.(storeInflight := storeInflight, blocked := blocked)));
        if infos != [] && ok { WakeParked(h, infos); }
      }
    }

    method WakeParked(h: Hash, infos: seq<Info>)
      requires infos != []
      modifies this`pending, this`pendingCount, this`owned, this`refcount
      ensures Models(R.WakeParked(old(St()), h, infos))
    {
      hide R.PendingPushAll, R.PendingPush, Z.ForgetDemand, RingNow, WorkNow, DemandNow, SlotsNow;
      SlotsAre();
      if cfg.hasCache && h in cache.slots {
        if cfg.sharePreload { ForgetDemand(h); }
      } else if cfg.sharePreload {
        PendingPush(infos[0]);
      } else {
        PendingPushAll(infos);
      }
    }

    method ForgetDemand(h: Hash)
      modifies this`owned, this`refcount
      ensures SlotsNow() == Z.ForgetDemand(old(SlotsNow()), h)
    {
      hide Z.PurgeOwned;
      PurgeOwnedForHash(h);
      refcount := refcount - {h};
    }

    method PendingPushAll(infos: seq<Info>)
      modifies this`pending, this`pendingCount
      ensures DemandNow() == R.PendingPushAll(old(DemandNow()), infos)
    {
      for i := 0 to |infos|
        invariant DemandNow() == R.PendingPushAll(old(DemandNow()), infos[..i])
        modifies this`pending, this`pendingCount
      {
        assert infos[..i + 1][..i] == infos[..i];
        PendingPush(infos[i]);
      }
      assert infos[..|infos|] == infos;
    }

    method StoreFailed(f: FileRef, x: Slot)
      requires Valid()
      modifies Repr()
      ensures Valid() && Models(R.StoreFailed(old(St()), f, x))
    {
      hide R.ReleaseStoreInflight, R.FileTerminal, Z.Release, RingNow, WorkNow, DemandNow, SlotsNow;
      ghost var s := St();
      Release(x);
      FileTerminal(f, false);
      ModelsOne(s.(slots := Z.Release(s.slots, x), work := R.FileTerminal(s.work, f, false)));
      ReleaseStoreInflight(f.hash, false);
    }

    method SettleLoadSlot(c: LoadCopy)
      requires Valid()
      modifies pool, cache, cache.lru, cache.arc
      modifies this`preload, this`cachedTotal, this`shared, this`sharedCached, this`owned, this`refcount
      ensures Valid()
      ensures SlotsNow() == R.SettleLoadSlot(old(SlotsNow()), c)
    {
      match c.source
      case Cached =>
        if c.file.hash in cache.slots { cache.Unpin(c.file.hash); }
      case Owned =>
        ReleaseOrCache(c.file.hash, c.slot);
      case Shared =>
        AddCopies(c.slot, -1);
        MaybeReleaseShared(c.slot);
    }

    /** Settles the copies of a batch and ends their files, in order. */
    method SettleCopies(cs: seq<LoadCopy>, ok: bool)
      requires Valid()
      modifies Repr()
      ensures Valid() && Models(R.SettleAll(old(St()), cs, ok))
    {
      hide R.SettleAll, R.SettleLoadSlot, R.FileTerminal, RingNow, WorkNow, DemandNow, SlotsNow;
      ghost var s0 := St();
      R.SettleNone(s0, ok);
      assert cs[..0] == [];
      for i := 0 to |cs|
        invariant Valid() && St() == R.SettleAll(s0, cs[..i], ok)
      {
        ghost var s := St();
        R.SettleNext(s0, cs, i, ok);
        SettleLoadSlot(cs[i]);
        FileTerminal(cs[i].file, ok);
        ModelsOne(s.(slots := R.SettleLoadSlot(s.slots, cs[i]), work := R.FileTerminal(s.work, cs[i].file, ok)));
      }
      assert cs[..|cs|] == cs;
    }

    method OnStoreCopyDone(f: FileRef, x: Slot, tempOk: bool, queued: bool)
      requires Valid()
      modifies Repr()
      ensures Valid() && Models(R.StoreCopyDone(old(St()), f, x, tempOk, queued))
    {
      hide R.StoreFailed, WorkNow, SlotsNow, DemandNow;
      ghost var s := St();
      if tempOk && queued {
        Submit(Write(f, x));
      } else {
        if tempOk { var _ := NewUserData(); }
        dataInflight := dataInflight - 1;
        ModelsOne(s.(ring := R.AddData(if tempOk then R.Refused(s.ring) else s.ring, -1)));
        StoreFailed(f, x);
      }
    }

    /** The GPU is done with the copy at position `k`. */
    method OnCopyDone(k: nat, tempOk: bool, queued: bool)
      requires Valid() && k < |pendingCopies|
      modifies Repr()
      ensures Valid() && Models(R.CopyDone(old(St()), k, tempOk, queued))
    {
      hide R.StoreCopyDone, R.SettleAll, WorkNow, SlotsNow, DemandNow;
      ghost var s := St();
      var copy := pendingCopies[k];
      pendingCopies := RemoveAt(pendingCopies, k);
      ghost var s1 := s.(ring := s.ring.(pendingCopies := RemoveAt(s.ring.pendingCopies, k)));
      match copy
      case StoreCopy(f, x) =>
        memory := memory[x := f.hash];
        ModelsOne(s1.(memory := s.memory[x := f.hash]));
        OnStoreCopyDone(f, x, tempOk, queued);
      case LoadBatch(members) =>
        ModelsOne(s1);
        SettleCopies(members, true);
    }

    // ---------- Operations that complete ----------

    method OnPreloadOpenFailed(info: Info)
      requires Valid()
      modifies Repr()
      ensures Valid() && Models(R.PreloadOpenFailed(old(St()), info))
    {
      hide R.FailWaiters, R.FailOneWaiter, R.InflightRemove, R.PreloadMissed, R.HasWaiter, WorkNow, SlotsNow, DemandNow, RingNow;
      ghost var s := St();
      SlotsAre();
      PreloadInflightRemove(info.hash);
      ghost var s1 := s.(demand := R.InflightRemove(s.demand, info.hash));
      ModelsOne(s1);
      R.FailedAnyIs(s1, info.hash);
      var failed := FailPreloadWaiters(info.hash);
      if !failed {
        ModelsOne(s1);
        ParkOrRemember(info);
      }
    }

    /** Fails the files that wait for a preload that will not come: one if it was private, all if shared. */
    method FailPreloadWaiters(h: Hash) returns (failed: bool)
      modifies this`waiters, this`jobs, this`log
      ensures failed <==> R.HasWaiter(old(St()), h)
      ensures Models(if cfg.sharePreload then R.FailWaiters(old(St()), h) else R.FailOneWaiter(old(St()), h))
      ensures !failed ==> Models(old(St()))
    {
      hide R.FailWaiters, R.FailOneWaiter, R.HasWaiter, WorkNow, SlotsNow, DemandNow, RingNow;
      R.FailedAnyIs(St(), h);
      if cfg.sharePreload {
        failed := FailAllPreloadWaiters(h);
      } else {
        failed := R.WaiterIndex(waiters, h) < |waiters|;
        FailOnePreloadWaiter(h);
      }
    }

    method ParkOrRemember(info: Info)
      modifies this`blocked, this`missing, this`missingOrder
      ensures DemandNow() == R.PreloadMissed(old(DemandNow()), info)
    {
      hide R.BlockOnWrite, R.RememberMissing;
      if info.hash in storeInflight {
        BlockOnWrite(info.hash, [info]);
      } else {
        RememberKnownMissing(info);
      }
    }

    method OnOpenLoadComplete(f: FileRef, ok: bool)
      requires Valid()
      modifies Repr()
      ensures Valid() && Models(R.OpenLoadDone(old(St()).(ring := R.AddOpen(old(St()).ring, -1)), f, ok))
    {
      hide R.FileTerminal, WorkNow, SlotsNow, DemandNow;
      openInflight := openInflight - 1;
      if ok { readyLoad := readyLoad + [f]; } else { FileTerminal(f, false); }
    }

    method OnOpenPreloadComplete(info: Info, ok: bool)
      requires Valid()
      modifies Repr()
      ensures Valid() && Models(R.OpenPreloadDone(old(St()).(ring := R.AddOpen(old(St()).ring, -1)), info, ok))
    {
      hide R.PreloadOpenFailed, WorkNow, SlotsNow, DemandNow;
      ghost var s := St();
      openInflight := openInflight - 1;
      ModelsOne(s.(ring := R.AddOpen(s.ring, -1)));
      if ok { readyPreload := readyPreload + [info]; } else { OnPreloadOpenFailed(info); }
    }

    method OnLoadReadComplete(f: FileRef, x: Slot, ok: bool)
      requires Valid()
      modifies Repr()
      ensures Valid() && Models(R.ReadLoadDone(old(St()), f, x, ok))
    {
      hide R.FileTerminal, Z.Release, R.QueueLoadCopy, WorkNow, SlotsNow, DemandNow, RingNow;
      ghost var s := St();
      if ok {
        memory := memory[x := f.hash];
        QueueLoadCopy(f, x, Owned);
      } else {
        Release(x);
        FileTerminal(f, false);
      }
    }

    method OnPreloadReadComplete(info: Info, x: Slot, ok: bool)
      requires Valid()
      modifies Repr()
      ensures Valid() && Models(R.PrivateReadDone(old(St()), info, x, ok))
    {
      hide R.FailOneWaiter, R.InflightRemove, R.PrivateDelivered, Z.Release, WorkNow, SlotsNow, DemandNow, RingNow;
      ghost var s := St();
      PreloadInflightRemove(info.hash);
      ghost var s1 := s.(demand := R.InflightRemove(s.demand, info.hash));
      if ok {
        memory := memory[x := info.hash];
        ModelsOne(s1.(memory := s.memory[x := info.hash]));
        DeliverPrivate(info, x);
      } else {
        Release(x);
        ModelsOne(s1.(slots := Z.Release(s.slots, x)));
        FailOnePreloadWaiter(info.hash);
      }
    }

    /** A finished private read goes to the first waiting file, or is kept. */
    method DeliverPrivate(info: Info, x: Slot)
      requires Valid()
      modifies this`waiters, this`copyReady, this`preload, this`cachedTotal
      ensures Valid() && Models(R.PrivateDelivered(old(St()), info, x))
    {
      hide R.PopWaiter, Z.PreloadPush, R.QueueLoadCopy, WorkNow, SlotsNow, DemandNow, RingNow;
      R.PopWaiterIs(St(), info.hash);
      var f := PreloadWaiterPop(info.hash);
      if f.Some? { QueueLoadCopy(f.value, x, Owned); } else { PreloadCachePush(x, info); }
    }

    /** Gives every file waiting for the hash a copy from the shared slot. */
    method ServeWaiters(h: Hash, x: Slot)
      requires Valid()
      modifies Repr()
      ensures Valid() && Models(R.ServeWaiters(old(St()), h, x))
    {
      hide R.ServeWaiters, R.Served, R.HasWaiter, WorkNow, SlotsNow, DemandNow, RingNow;
      ghost var target := R.ServeWaiters(St(), h, x);
      var more := true;
      while more
        invariant Valid() && R.ServeWaiters(St(), h, x) == target
        invariant !more ==> target == St()
        decreases |waiters| + if more then 1 else 0
      {
        ghost var s := St();
        R.ServeIs(s, h, x);
        more := ServeOne(h, x);
        ModelsOne(R.Served(s, h, x));
      }
    }

    method ServeOne(h: Hash, x: Slot) returns (served: bool)
      requires Valid()
      modifies Repr()
      ensures Valid() && Models(R.Served(old(St()), h, x)) && (served <==> R.HasWaiter(old(St()), h))
    {
      hide R.PopWaiter, R.Served, Z.Decref, Z.AddCopies, R.QueueLoadCopy, R.HasWaiter, R.RequestOf, WorkNow, SlotsNow, DemandNow, RingNow;
      R.PopWaiterIs(St(), h);
      R.ServedIs(St(), h, x);
      var f := PreloadWaiterPop(h);
      if f.None? { return false; }
      CopyShared(f.value, x, h);
      served := true;
    }

    method CopyShared(f: FileRef, x: Slot, h: Hash)
      requires Valid()
      modifies pool, cache, cache.lru, cache.arc, this`copyReady
      modifies this`preload, this`cachedTotal, this`shared, this`sharedCached, this`owned, this`refcount
      ensures Valid()
      ensures RingNow() == R.QueueLoadCopy(old(RingNow()), f, x, Shared)
      ensures SlotsNow() == Z.Decref(Z.AddCopies(old(SlotsNow()), x, 1), R.RequestOf(WorkNow(), f), h)
    {
      hide Z.Decref, Z.AddCopies, R.QueueLoadCopy, R.RequestOf, WorkNow, SlotsNow, RingNow;
      var r := RequestOf(f);
      QueueLoadCopy(f, x, Shared);
      CopyAndDecref(x, r, h);
    }

    method CopyAndDecref(x: Slot, r: ReqId, h: Hash)
      requires Valid()
      modifies pool, cache, cache.lru, cache.arc
      modifies this`preload, this`cachedTotal, this`shared, this`sharedCached, this`owned, this`refcount
      ensures Valid()
      ensures SlotsNow() == Z.Decref(Z.AddCopies(old(SlotsNow()), x, 1), r, h)
    {
      hide Z.Decref, Z.AddCopies, SlotsNow;
      AddCopies(x, 1);
      SharedDecref(r, h);
    }

    method RequestOf(f: FileRef) returns (r: ReqId)
      ensures r == R.RequestOf(WorkNow(), f)
    {
      r := if f.job < |jobs| then jobs[f.job].reqId else 0;
    }

    method KeepOrRelease(h: Hash, x: Slot)
      requires Valid()
      modifies pool, cache, cache.lru, cache.arc
      modifies this`preload, this`cachedTotal, this`shared, this`sharedCached, this`owned, this`refcount
      ensures Valid()
      ensures SlotsNow() == Z.KeepOrRelease(old(SlotsNow()), h, x)
    {
      hide Z.MaybeReleaseShared, Z.ClaimableFrom, Z.Replace;
      if Count(refcount, h) > 0 && x in shared {
        var prior := Z.ClaimableFrom(sharedCached, shared, shared[x].hash, 0);
        sharedCached := if prior.Some? then Z.Replace(sharedCached, prior.value, x) else sharedCached + [x];
        shared := shared[x := shared[x].(cached := true)];
        cachedTotal := cachedTotal + 1;
      } else {
        MaybeReleaseShared(x);
      }
    }

    method OnSharedPreloadReadComplete(info: Info, x: Slot, ok: bool)
      requires Valid()
      modifies Repr()
      ensures Valid() && Models(R.SharedReadDone(old(St()), info, x, ok))
    {
      hide R.FailWaiters, R.InflightRemove, R.SharedDelivered, Z.Release, R.HasWaiter, WorkNow, SlotsNow, DemandNow, RingNow;
      ghost var s := St();
      PreloadInflightRemove(info.hash);
      ModelsOne(s.(demand := R.InflightRemove(s.demand, info.hash)));
      if ok {
        DeliverShared(info.hash, x);
      } else {
        var _ := FailAllPreloadWaiters(info.hash);
        Release(x);
      }
    }

    method Arrive(h: Hash, x: Slot)
      requires Valid()
      modifies this`shared, this`memory
      ensures Valid() && St() == R.Arrived(old(St()), h, x)
    {
      hide WorkNow, DemandNow, RingNow;
      memory := memory[x := h];
      shared := shared[x := SharedSlot(h, 0, false)];
    }

    /** A finished shared read serves the waiting files, then becomes claimable or goes. */
    method DeliverShared(h: Hash, x: Slot)
      requires Valid()
      modifies Repr()
      ensures Valid() && Models(R.SharedDelivered(old(St()), h, x))
    {
      hide R.ServeWaiters, R.Arrived, Z.KeepOrRelease, WorkNow, DemandNow, RingNow, SlotsNow;
      Arrive(h, x);
      ServeWaiters(h, x);
      KeepOrRelease(h, x);
    }

    method OnWriteComplete(f: FileRef, x: Slot, ok: bool)
      requires Valid()
      modifies Repr()
      ensures Valid() && Models(R.WriteDone(old(St()), f, x, ok))
    {
      hide R.ReleaseStoreInflight, R.StoreFailed, R.FileTerminal, Z.ReleaseOrCache, WorkNow, DemandNow, RingNow, SlotsNow;
      ghost var s := St();
      if ok {
        ReleaseOrCache(f.hash, x);
        FileTerminal(f, true);
        ModelsOne(s.(slots := Z.ReleaseOrCache(s.slots, f.hash, x), work := R.FileTerminal(s.work, f, true)));
        ReleaseStoreInflight(f.hash, true);
      } else {
        StoreFailed(f, x);
      }
    }

    method OnReadLoadReaped(f: FileRef, x: Slot, ok: bool, closed: bool)
      requires Valid()
      modifies Repr()
      ensures Valid() && Models(R.OpDone(old(St()), ReadLoad(f, x), ok, closed))
    {
      hide R.ReadLoadDone, R.AsyncClose, WorkNow, DemandNow, SlotsNow;
      ReleaseData();
      hide RingNow;
      OnLoadReadComplete(f, x, ok);
      AsyncClose(closed);
    }

    method OnReadPreloadReaped(info: Info, x: Slot, ok: bool, closed: bool)
      requires Valid()
      modifies Repr()
      ensures Valid() && Models(R.OpDone(old(St()), ReadPreload(info, x), ok, closed))
    {
      hide R.ReadPreloadDone, R.AsyncClose, WorkNow, DemandNow, SlotsNow;
      ReleaseData();
      hide RingNow;
      OnAnyPreloadReadComplete(info, x, ok);
      AsyncClose(closed);
    }

    /** One unit of the device budget is free again. */
    method ReleaseData()
      modifies this`dataInflight
      ensures RingNow() == R.AddData(old(RingNow()), -1)
      ensures St() == old(St()).(ring := R.AddData(old(St()).ring, -1))
    {
      hide WorkNow, DemandNow, SlotsNow;
      dataInflight := dataInflight - 1;
    }

    method OnAnyPreloadReadComplete(info: Info, x: Slot, ok: bool)
      requires Valid()
      modifies Repr()
      ensures Valid() && Models(R.ReadPreloadDone(old(St()), info, x, ok))
    {
      hide R.SharedReadDone, R.PrivateReadDone, WorkNow, DemandNow, RingNow;
      if cfg.sharePreload { OnSharedPreloadReadComplete(info, x, ok); } else { OnPreloadReadComplete(info, x, ok); }
    }

    lemma SlotsAre()
      ensures SlotsNow().cfg == cfg && SlotsNow().cache.slots == cache.slots && SlotsNow().refcount == refcount
      ensures SlotsNow().owned == owned
    {
    }

    /** One completion reaped from the ring; a number that is not in flight is ignored. */
    method OnCompletion(ud: nat, ok: bool, closed: bool)
      requires Valid()
      modifies Repr()
      ensures Valid()
      ensures if ud in old(inflight) then Models(R.OpCompletes(old(St()), ud, ok, closed)) else St() == old(St())
    {
      hide R.OpDone, WorkNow, DemandNow, SlotsNow;
      if ud !in inflight { return; }
      ghost var s := St();
      var op := inflight[ud];
      inflight := inflight - {ud};
      ModelsOne(s.(ring := s.ring.(inflight := s.ring.inflight - {ud})));
      hide RingNow;
      Dispatch(op, ok, closed);
    }

    method Dispatch(op: Op, ok: bool, closed: bool)
      requires Valid()
      modifies Repr()
      ensures Valid() && Models(R.OpDone(old(St()), op, ok, closed))
    {
      hide R.OpenLoadDone, R.OpenPreloadDone, R.ReadLoadDone, R.ReadPreloadDone, R.WriteDone, R.AsyncClose, WorkNow, DemandNow, SlotsNow;
      ghost var s := St();
      match op
      case OpenLoad(f) => OnOpenLoadComplete(f, ok);
      case OpenPreload(info) => OnOpenPreloadComplete(info, ok);
      case ReadLoad(f, x) => OnReadLoadReaped(f, x, ok, closed);
      case ReadPreload(info, x) => OnReadPreloadReaped(info, x, ok, closed);
      case Write(f, x) =>
        ReleaseData();
        OnWriteComplete(f, x, ok);
      case Close =>
    }

    // ---------- What the scheduler looks at ----------

    method CanOpen() returns (b: bool)
      ensures b == R.CanOpen(St())
    {
      hide WorkNow, DemandNow;
      b := openInflight + |readyLoad| + |readyPreload| < cfg.openLookahead;
    }

    method PreloadHasCopy(h: Hash) returns (b: bool)
      ensures b == R.PreloadHasCopy(St(), h)
    {
      hide WorkNow, RingNow, Z.ClaimableFrom, Z.PreloadIndex;
      if cfg.hasCache && h in cache.slots { return true; }
      if Count(inflightHashes, h) > 0 { return true; }
      if cfg.sharePreload { return Z.ClaimableFrom(sharedCached, shared, h, 0).Some?; }
      b := Z.PreloadIndex(preload, h) < |preload|;
    }

    method HasRealLoadPressure() returns (p: bool)
      ensures p == R.RealLoadPressure(St())
    {
      hide R.PreloadHasCopy, DemandNow, SlotsNow;
      if readyLoad != [] { return true; }
      var todo := inflight.Keys;
      while todo != {}
        invariant todo <= inflight.Keys
        invariant forall ud :: ud in inflight && ud !in todo ==> !R.ForegroundOp(WorkNow(), inflight[ud])
        decreases todo
      {
        var ud :| ud in todo;
        var foreground := IsForeground(inflight[ud]);
        if foreground { return true; }
        todo := todo - {ud};
      }
      for k := 0 to |active|
        invariant forall i :: 0 <= i < k ==> !R.WantsDisk(St(), active[i])
      {
        var wants := WantsDisk(active[k]);
        if wants { return true; }
      }
      p := false;
    }

    method IsForeground(op: Op) returns (b: bool)
      ensures b == R.ForegroundOp(WorkNow(), op)
    {
      b := match op
        case OpenLoad(f) => f.job < |jobs| && !jobs[f.job].isStore
        case ReadLoad(f, _) => f.job < |jobs| && !jobs[f.job].isStore
        case _ => false;
    }

    method WantsDisk(j: JobId) returns (b: bool)
      ensures b == R.WantsDisk(St(), j)
    {
      hide R.PreloadHasCopy, DemandNow, SlotsNow, RingNow;
      if j >= |jobs| || jobs[j].isStore || jobs[j].failed || jobs[j].futureSet { return false; }
      if jobs[j].next < |jobs[j].hashes| {
        var has := PreloadHasCopy(jobs[j].hashes[jobs[j].next]);
        return !has;
      }
      b := false;
    }

    // ---------- Opening and reading files ----------

    method SubmitOpenRead(f: FileRef, queued: bool)
      modifies this`openInflight, this`inflight, this`nextUd, this`jobs, this`log
      ensures Models(R.SubmitOpenRead(old(St()), f, queued))
    {
      hide R.FileTerminal, WorkNow, DemandNow, SlotsNow;
      if queued {
        openInflight := openInflight + 1;
        Submit(OpenLoad(f));
      } else {
        var _ := NewUserData();
        FileTerminal(f, false);
      }
    }

    method SubmitOpenPreload(info: Info, queued: bool)
      modifies this`openInflight, this`inflight, this`nextUd, this`inflightHashes, this`inflightTotal
      ensures Models(R.SubmitOpenPreload(old(St()), info, queued))
    {
      hide R.InflightAdd, WorkNow, DemandNow, SlotsNow;
      if queued {
        openInflight := openInflight + 1;
        PreloadInflightAdd(info.hash);
        Submit(OpenPreload(info));
      } else {
        var _ := NewUserData();
      }
    }

    /** The device is given the slot to read a file into. */
    method IssueRead(op: Op, x: Slot)
      modifies this`dataInflight, this`inflight, this`nextUd, this`memory
      ensures Models(old(St()).(ring := R.Submit(R.AddData(old(St()).ring, 1), op), memory := old(St()).memory - {x}))
    {
      hide WorkNow, DemandNow, SlotsNow, RingNow, R.Submit, R.AddData;
      TakeData();
      Submit(op);
      memory := memory - {x};
    }

    /** One unit of the device budget is taken. */
    method TakeData()
      modifies this`dataInflight
      ensures RingNow() == R.AddData(old(RingNow()), 1)
    {
      dataInflight := dataInflight + 1;
    }

    /** The read was refused: the file is closed and the slot is free again. */
    method WithdrawRead(x: Slot, closed: bool)
      requires Valid()
      modifies Repr()
      ensures Valid()
      ensures Models(old(St()).(ring := R.AsyncClose(R.Refused(old(St()).ring), closed), slots := Z.Release(old(St()).slots, x)))
    {
      hide R.AsyncClose, R.Refused, Z.Release, WorkNow, DemandNow, SlotsNow, RingNow;
      var _ := NewUserData();
      AsyncClose(closed);
      Release(x);
    }

    method SubmitReadLoad(f: FileRef, x: Slot, queued: bool, closed: bool)
      requires Valid()
      modifies Repr()
      ensures Valid() && Models(R.SubmitReadLoad(old(St()), f, x, queued, closed))
    {
      hide R.FileTerminal, Z.Release, R.AsyncClose, R.Refused, R.Submit, R.AddData, WorkNow, DemandNow, SlotsNow, RingNow;
      if queued {
        IssueRead(Op.ReadLoad(f, x), x);
      } else {
        WithdrawRead(x, closed);
        FileTerminal(f, false);
      }
    }

    method SubmitReadPreload(info: Info, x: Slot, queued: bool, closed: bool)
      requires Valid()
      modifies Repr()
      ensures Valid() && Models(R.SubmitReadPreload(old(St()), info, x, queued, closed))
    {
      hide R.FailWaiters, R.FailOneWaiter, R.InflightRemove, Z.Release, R.AsyncClose, R.Refused, R.Submit, R.AddData;
      SlotsAre();
      hide WorkNow, DemandNow, SlotsNow, RingNow;
      if queued {
        IssueRead(Op.ReadPreload(info, x), x);
      } else {
        FailRead(info, x, closed);
      }
    }

    method FailRead(info: Info, x: Slot, closed: bool)
      requires Valid()
      modifies Repr()
      ensures Valid() && Models(R.SubmitReadPreload(old(St()), info, x, false, closed))
    {
      hide R.FailWaiters, R.FailOneWaiter, R.InflightRemove, Z.Release, R.AsyncClose, R.Refused;
      SlotsAre();
      hide WorkNow, DemandNow, SlotsNow, RingNow;
      ghost var s := St();
      WithdrawRead(x, closed);
      PreloadInflightRemove(info.hash);
      ModelsOne(s.(ring := R.AsyncClose(R.Refused(s.ring), closed), slots := Z.Release(s.slots, x),
                   demand := R.InflightRemove(s.demand, info.hash)));
      var _ := FailPreloadWaiters(info.hash);
    }

    // ---------- Scheduling loads ----------

    method ScheduleCacheHit(j: JobId, x: Slot)
      requires Valid() && R.Unfinished(WorkNow(), j) && jobs[j].hashes[jobs[j].next] in cache.slots
      modifies Repr()
      ensures Valid() && Models(R.CacheHit(old(St()), j, x))
    {
      hide R.StartFile, R.QueueLoadCopy, DemandNow, RingNow;
      var f := R.FileRefOf(jobs, j);
      cache.Pin(f.hash);
      StartFile(j);
      QueueLoadCopy(f, x, Cached);
    }

    method SchedulePreloadDone(j: JobId)
      requires Valid() && R.Unfinished(WorkNow(), j)
      modifies Repr()
      ensures Valid() && Models(R.ClaimPrivate(old(St()), j))
    {
      hide R.StartFile, R.QueueLoadCopy, DemandNow, RingNow, SlotsNow, Z.PreloadPop;
      Z.PreloadPopIs(SlotsNow(), R.FileRefOf(jobs, j).hash);
      var f := R.FileRefOf(jobs, j);
      var e := PreloadCachePop(f.hash);
      if e.Some? {
        StartFile(j);
        QueueLoadCopy(f, e.value.slot, Owned);
      }
    }

    method SchedulePreloadInflight(j: JobId)
      requires R.Unfinished(WorkNow(), j)
      modifies this`jobs, this`waiters
      ensures Models(R.WaitForInflight(old(St()), j))
    {
      hide R.StartFile, DemandNow, RingNow, SlotsNow;
      var f := R.FileRefOf(jobs, j);
      StartFile(j);
      waiters := waiters + [f];
    }

    method SharedClaimFromCache(j: JobId, x: Slot)
      requires Valid() && R.Unfinished(WorkNow(), j)
      modifies Repr()
      ensures Valid() && Models(R.ClaimShared(old(St()), j, x))
    {
      hide R.StartFile, R.QueueLoadCopy, DemandNow, RingNow, SlotsNow, Z.Decref, Z.AddCopies;
      var f := R.FileRefOf(jobs, j);
      var r := jobs[j].reqId;
      StartFile(j);
      QueueLoadCopy(f, x, Shared);
      CopyAndDecref(x, r, f.hash);
    }

    /** The load opens the queued preload itself and waits for it, even if the open was refused. */
    method PromotePendingToSharedRead(j: JobId, queued: bool)
      requires R.Unfinished(WorkNow(), j)
      modifies this`pendingCancel, this`openInflight, this`inflight, this`nextUd, this`inflightHashes, this`inflightTotal
      modifies this`jobs, this`waiters
      ensures Models(R.PromotePending(old(St()), j, queued))
    {
      hide R.CancelOnePending, R.SubmitOpenPreload, DemandNow, RingNow, SlotsNow;
      R.OpenPreloadKeepsWork();
      var f := R.FileRefOf(jobs, j);
      ghost var s := St();
      var _ := CancelOnePending(f.hash);
      ghost var s1 := s.(demand := R.CancelOnePending(s.demand, f.hash));
      ModelsOne(s1);
      var info := Info(f.hash, jobs[j].reqId);
      SubmitOpenPreload(info, queued);
      ModelsOne(R.SubmitOpenPreload(s1, info, queued));
      SchedulePreloadInflight(j);
    }

    method OpenForLoad(j: JobId, queued: bool)
      requires R.Unfinished(WorkNow(), j)
      modifies this`openInflight, this`inflight, this`nextUd, this`jobs, this`log
      ensures Models(R.OpenForLoad(old(St()), j, queued))
    {
      hide R.StartFile, R.SubmitOpenRead, DemandNow, RingNow, SlotsNow;
      ghost var s := St();
      var f := R.FileRefOf(jobs, j);
      StartFile(j);
      ModelsOne(s.(work := R.StartFile(s.work, j)));
      SubmitOpenRead(f, queued);
    }

    method ScheduleSharedLoad(j: JobId, queued: bool) returns (made: bool)
      requires Valid() && R.Unfinished(WorkNow(), j)
      modifies Repr()
      ensures Valid() && Models(R.ScheduleSharedLoad(old(St()), j, queued))
      ensures made <==> !R.SharedStalls(old(St()), j)
    {
      hide R.ClaimShared, R.WaitForInflight, R.OpenForLoad, R.PromotePending, Z.Decref, Z.ClaimableFrom, R.CanOpen, RingNow;
      ghost var s := St();
      var f := R.FileRefOf(jobs, j);
      var h, r := f.hash, jobs[j].reqId;
      var x := Z.ClaimableFrom(sharedCached, shared, h, 0);
      made := true;
      if x.Some? {
        SharedClaimFromCache(j, x.value);
        return;
      }
      if Count(inflightHashes, h) > 0 {
        SchedulePreloadInflight(j);
        return;
      }
      var canOpen := CanOpen();
      if !canOpen { return false; }
      if Count(pendingCount, h) > 0 {
        PromotePendingToSharedRead(j, queued);
      } else {
        OpenAndDecref(j, r, h, queued);
      }
    }

    method OpenAndDecref(j: JobId, r: ReqId, h: Hash, queued: bool)
      requires Valid() && R.Unfinished(WorkNow(), j)
      modifies Repr()
      ensures Valid()
      ensures var s1 := R.OpenForLoad(old(St()), j, queued); Models(s1.(slots := Z.Decref(s1.slots, r, h)))
    {
      hide R.OpenForLoad, Z.Decref, DemandNow, RingNow, SlotsNow, WorkNow;
      OpenForLoad(j, queued);
      SharedDecref(r, h);
    }

    method SchedulePrivateLoad(j: JobId, queued: bool) returns (made: bool)
      requires Valid() && R.Unfinished(WorkNow(), j)
      modifies Repr()
      ensures Valid() && Models(R.SchedulePrivateLoad(old(St()), j, queued))
      ensures made <==> !R.PrivateStalls(old(St()), j)
    {
      hide R.ClaimPrivate, R.WaitForInflight, R.OpenForLoad, R.CancelOnePending, Z.PreloadIndex, R.CanOpen, R.WaiterCount, RingNow;
      ghost var s := St();
      var h := R.FileRefOf(jobs, j).hash;
      made := true;
      if Z.PreloadIndex(preload, h) < |preload| {
        SchedulePreloadDone(j);
        return;
      }
      if Count(inflightHashes, h) > 0 && R.WaiterCount(waiters, h) < Count(inflightHashes, h) {
        SchedulePreloadInflight(j);
        return;
      }
      var canOpen := CanOpen();
      if !canOpen { return false; }
      OpenAndCancel(j, h, queued);
    }

    method OpenAndCancel(j: JobId, h: Hash, queued: bool)
      requires R.Unfinished(WorkNow(), j)
      modifies this`openInflight, this`inflight, this`nextUd, this`jobs, this`log, this`pendingCancel
      ensures var s1 := R.OpenForLoad(old(St()), j, queued); Models(s1.(demand := R.CancelOnePending(s1.demand, h)))
    {
      hide R.OpenForLoad, R.CancelOnePending, DemandNow, RingNow, SlotsNow, WorkNow;
      OpenForLoad(j, queued);
      var _ := CancelOnePending(h);
    }

    /** The next file of a load: from the cache, from a preload, or from disk. */
    method ScheduleLoad(j: JobId, queued: bool) returns (made: bool)
      requires Valid() && R.Unfinished(WorkNow(), j)
      modifies Repr()
      ensures Valid() && Models(R.ScheduleLoad(old(St()), j, queued))
      ensures made <==> !R.LoadStalls(old(St()), j)
    {
      hide R.CacheHit, R.ScheduleSharedLoad, R.SchedulePrivateLoad, RingNow, DemandNow;
      var h := R.FileRefOf(jobs, j).hash;
      ghost var s := St();
      R.StallsIs(s, j);
      hide R.LoadStalls, R.SharedStalls, R.PrivateStalls;
      if cfg.hasCache {
        var c := cache.Get(h);
        if c.Some? {
          ModelsOne(s.(slots := s.slots.(cache := SC.Get(s.slots.cache, h).0)));
          ScheduleCacheHit(j, c.value.slotIndex);
          return true;
        }
        ModelsOne(s);
      }
      if cfg.sharePreload {
        made := ScheduleSharedLoad(j, queued);
      } else {
        made := SchedulePrivateLoad(j, queued);
      }
    }

    // ---------- Scheduling stores, reads and preloads ----------

    method ScheduleStoreCopy(j: JobId, x: Slot, launched: bool)
      requires Valid() && R.Unfinished(WorkNow(), j)
      modifies Repr()
      ensures Valid() && Models(R.ScheduleStoreCopy(old(St()), j, x, launched))
    {
      hide R.StartFile, R.StoreFailed, DemandNow, RingNow, SlotsNow;
      ghost var s := St();
      var f := R.FileRefOf(jobs, j);
      StartFile(j);
      if launched {
        LaunchStoreCopy(f, x);
      } else {
        ModelsOne(s.(work := R.StartFile(s.work, j)));
        StoreFailed(f, x);
      }
    }

    method LaunchStoreCopy(f: FileRef, x: Slot)
      modifies this`dataInflight, this`pendingCopies, this`memory
      ensures RingNow() == R.AddData(old(RingNow()), 1).(pendingCopies := old(RingNow()).pendingCopies + [StoreCopy(f, x)])
      ensures memory == old(memory) - {x}
    {
      dataInflight := dataInflight + 1;
      pendingCopies := pendingCopies + [StoreCopy(f, x)];
      memory := memory - {x};
    }

    /** The next file of a store, if a slot can be had. */
    method ScheduleOne(j: JobId, launched: bool) returns (made: bool)
      requires Valid() && R.Unfinished(WorkNow(), j)
      modifies Repr()
      ensures Valid() && Models(R.ScheduleStore(old(St()), j, launched))
      ensures made <==> Z.ReserveForeground(old(St()).slots).1.Some?
    {
      hide R.ScheduleStoreCopy, Z.ReserveForeground, DemandNow, RingNow, SlotsNow;
      ghost var s := St();
      var x := ReserveForegroundSlot();
      ModelsOne(s.(slots := Z.ReserveForeground(s.slots).0));
      made := x.Some?;
      if made { ScheduleStoreCopy(j, x.value, launched); }
    }

    /** Starts the read of the oldest open file of a load, if a slot can be had. */
    method DrainLoadFd(queued: bool, closed: bool) returns (made: bool)
      requires Valid() && readyLoad != []
      modifies Repr()
      ensures Valid() && Models(R.DrainLoadFd(old(St()), queued, closed))
      ensures made ==> |readyLoad| < |old(readyLoad)|
      ensures made <==> Z.ReserveForeground(old(St()).slots).1.Some?
    {
      hide R.SubmitReadLoad, Z.ReserveForeground, DemandNow, WorkNow, SlotsNow;
      ghost var s := St();
      R.LoadFdShorter(s, queued, closed);
      var x := ReserveForegroundSlot();
      made := x.Some?;
      if made {
        var f := PopReadyLoad();
        ModelsOne(s.(slots := Z.ReserveForeground(s.slots).0, ring := s.ring.(readyLoad := s.ring.readyLoad[1..])));
        SubmitReadLoad(f, x.value, queued, closed);
      }
      RingIs();
    }

    method PopReadyLoad() returns (f: FileRef)
      requires readyLoad != []
      modifies this`readyLoad
      ensures f == old(readyLoad)[0] && RingNow() == old(RingNow()).(readyLoad := old(RingNow()).readyLoad[1..])
    {
      f := readyLoad[0];
      readyLoad := readyLoad[1..];
    }

    method PopReadyPreload() returns (info: Info)
      requires readyPreload != []
      modifies this`readyPreload
      ensures info == old(readyPreload)[0] && RingNow() == R.PopReadyPreload(old(RingNow()))
      ensures old(RingNow()).readyPreload == old(readyPreload)
    {
      info := readyPreload[0];
      readyPreload := readyPreload[1..];
    }

    method YieldOpenFd(closed: bool)
      requires Valid() && readyPreload != []
      modifies Repr()
      ensures Valid() && Models(R.YieldOpenFd(old(St()), closed))
    {
      hide R.AsyncClose, R.PendingPush, R.InflightRemove, R.PopReadyPreload, DemandNow, WorkNow, SlotsNow;
      RingIs();
      hide RingNow;
      var info := PopReadyPreload();
      Requeue(info);
      AsyncClose(closed);
    }

    lemma RingIs()
      ensures RingNow().readyPreload == readyPreload && RingNow().readyLoad == readyLoad && RingNow().dataInflight == dataInflight
    {
    }

    method Requeue(info: Info)
      modifies this`inflightHashes, this`inflightTotal, this`pending, this`pendingCount
      ensures DemandNow() == R.PendingPush(R.InflightRemove(old(DemandNow()), info.hash), info)
    {
      hide R.PendingPush, R.InflightRemove, DemandNow;
      PreloadInflightRemove(info.hash);
      PendingPush(info);
    }

    /** Reads the oldest open preload into the slot just reserved, if there is one. */
    method ReadPreloadFd(ghost s: State, ghost r: (Slots, Option<Slot>), x: Option<Slot>, queued: bool, closed: bool)
      requires Valid() && readyPreload != [] && s == St().(slots := s.slots) && SlotsNow() == r.0 && x == r.1
      modifies Repr()
      ensures Valid() && s.ring.readyPreload != [] && Models(R.ReadPreloadFd(s, r, queued, closed))
      ensures x.None? ==> readyPreload == old(readyPreload)
    {
      hide R.SubmitReadPreload, R.PopReadyPreload, DemandNow, WorkNow, SlotsNow;
      if x.Some? {
        var info := PopReadyPreload();
        ModelsOne(s.(slots := r.0, ring := R.PopReadyPreload(s.ring)));
        hide RingNow;
        SubmitReadPreload(info, x.value, queued, closed);
      }
    }

    /** The oldest open preload: read for a waiting load, given up, or read in the background. */
    method DrainPreloadFd(queued: bool, closed: bool) returns (made: bool)
      requires Valid() && readyPreload != []
      modifies Repr()
      ensures Valid() && Models(R.DrainPreloadFd(old(St()), queued, closed))
      ensures if made then |readyPreload| < |old(readyPreload)| else readyPreload == old(readyPreload)
    {
      hide R.YieldOpenFd, R.ReadPreloadFd, Z.ReserveForeground, Z.ReservePreload, R.RealLoadPressure, DemandNow, WorkNow, SlotsNow;
      ghost var s := St();
      SlotsAre();
      RingIs();
      R.FailedAnyIs(s, readyPreload[0].hash);
      hide R.HasWaiter, RingNow;
      var waited := R.WaiterIndex(waiters, readyPreload[0].hash) < |waiters|;
      made := false;
      if waited {
        if dataInflight < cfg.iodepth { made := ReadForWaiter(queued, closed); }
        return;
      }
      var pressure := HasRealLoadPressure();
      if pressure {
        R.YieldShorter(s, closed);
        YieldOpenFd(closed);
        RingIs();
        made := true;
      } else if dataInflight < cfg.iodepth {
        made := ReadInBackground(queued, closed);
      }
    }

    method ReadForWaiter(queued: bool, closed: bool) returns (made: bool)
      requires Valid() && readyPreload != []
      modifies Repr()
      ensures Valid() && Models(R.ReadPreloadFd(old(St()), Z.ReserveForeground(old(St()).slots), queued, closed))
      ensures if made then |readyPreload| < |old(readyPreload)| else readyPreload == old(readyPreload)
    {
      hide R.ReadPreloadFd, Z.ReserveForeground, DemandNow, WorkNow, SlotsNow;
      ghost var s := St();
      ghost var r := Z.ReserveForeground(s.slots);
      var x := ReserveForegroundSlot();
      made := x.Some?;
      R.ReadShorter(s, r, queued, closed);
      ReadPreloadFd(s, r, x, queued, closed);
    }

    method ReadInBackground(queued: bool, closed: bool) returns (made: bool)
      requires Valid() && readyPreload != []
      modifies Repr()
      ensures Valid() && Models(R.ReadPreloadFd(old(St()), Z.ReservePreload(old(St()).slots), queued, closed))
      ensures if made then |readyPreload| < |old(readyPreload)| else readyPreload == old(readyPreload)
    {
      hide R.ReadPreloadFd, Z.ReservePreload, DemandNow, WorkNow, SlotsNow;
      ghost var s := St();
      ghost var r := Z.ReservePreload(s.slots);
      var x := ReservePreloadSlot();
      made := x.Some?;
      R.ReadShorter(s, r, queued, closed);
      ReadPreloadFd(s, r, x, queued, closed);
    }

    /** The oldest pending entry: dropped, parked on a store, or opened. */
    method Speculate(queued: bool)
      requires pending != []
      modifies this`pending, this`pendingCount, this`pendingCancel, this`blocked
      modifies this`openInflight, this`inflight, this`nextUd, this`inflightHashes, this`inflightTotal
      ensures Models(R.Speculate(old(St()), queued)) && |pending| < |old(pending)|
    {
      hide R.DropCancelled, R.PendingPop, R.BlockOnWrite, R.SubmitOpenPreload, WorkNow, SlotsNow, RingNow;
      ghost var s := St();
      var info := pending[0];
      R.SpeculateShorter(s, queued);
      if Count(pendingCancel, info.hash) > 0 {
        DropCancelled();
      } else if info.hash in storeInflight {
        PendingPop();
        BlockOnWrite(info.hash, [info]);
      } else {
        PendingPop();
        ModelsOne(s.(demand := R.PendingPop(s.demand)));
        SubmitOpenPreload(info, queued);
      }
    }

    /** Launches the queued load copies as one batch; if that fails, they are all over. */
    method FlushCopyBatch(launched: bool)
      requires Valid() && copyReady != []
      modifies Repr()
      ensures Valid() && Models(R.FlushCopies(old(St()), launched)) && copyReady == []
    {
      hide R.SettleAll, WorkNow, SlotsNow, DemandNow;
      ghost var s := St();
      var ready := copyReady;
      R.SettleAllKeepsRing(s.(ring := s.ring.(copyReady := [])), ready, false);
      copyReady := [];
      if launched {
        pendingCopies := pendingCopies + [LoadBatch(ready)];
      } else {
        ModelsOne(s.(ring := s.ring.(copyReady := [])));
        hide RingNow;
        SettleCopies(ready, false);
      }
      CopiesAre();
    }

    lemma CopiesAre()
      ensures St().ring.copyReady == copyReady
    {
    }

    method FinishJobs()
      modifies this`active
      ensures WorkNow() == old(WorkNow()).(active := R.Remaining(old(WorkNow()), old(active)))
    {
      var remaining := [];
      for k := 0 to |active|
        invariant remaining == R.Remaining(WorkNow(), active[..k])
      {
        assert active[..k + 1][..k] == active[..k];
        var j := active[k];
        var finished := j < |jobs| && jobs[j].inflight == 0 && (jobs[j].next >= |jobs[j].hashes| || jobs[j].failed) && jobs[j].futureSet;
        if !finished { remaining := remaining + [j]; }
      }
      assert active[..|active|] == active;
      active := remaining;
    }

    // ---------- Intake ----------

    method IntakeDemand(r: ReqId, h: Hash)
      requires Valid()
      modifies this`owned, this`refcount, this`pending, this`pendingCount, this`missing, this`missingOrder
      ensures Valid() && Models(R.IntakeDemand(old(St()), r, h))
    {
      hide R.PendingPush, R.AddMissing, R.HasAnySharedState, Raise, Suffix, WorkNow, RingNow, DemandNow, SlotsNow;
      SlotsAre();
      if !(cfg.hasCache && h in cache.slots) && (r, h) !in owned {
        if cfg.sharePreload {
          OwnShared(r, h);
          QueueIfNew(r, h);
        } else {
          Own(r, h);
          JoinOrQueue(Info(h, r));
        }
      }
    }

    method QueueIfNew(r: ReqId, h: Hash)
      modifies this`pending, this`pendingCount
      ensures DemandNow() == var d := old(DemandNow()); if R.HasAnySharedState(SlotsNow(), d, h) then d else R.PendingPush(d, Info(h, r))
    {
      hide R.PendingPush, R.HasAnySharedState, SlotsNow, DemandNow;
      var known := HasAnySharedState(h);
      if !known { PendingPush(Info(h, r)); }
    }

    method Own(r: ReqId, h: Hash)
      modifies this`owned
      ensures SlotsNow() == old(SlotsNow()).(owned := Suffix(old(SlotsNow()).owned + [(r, h)], MAX_PRELOAD_OWNED))
    {
      var keep := owned + [(r, h)];
      while |keep| > MAX_PRELOAD_OWNED
        invariant Suffix(keep, MAX_PRELOAD_OWNED) == Suffix(owned + [(r, h)], MAX_PRELOAD_OWNED)
        decreases |keep|
      {
        keep := keep[1..];
      }
      owned := keep;
    }

    /** The request's demand is counted. */
    method OwnShared(r: ReqId, h: Hash)
      modifies this`owned, this`refcount
      ensures SlotsNow() == old(SlotsNow()).(owned := Suffix(old(SlotsNow()).owned + [(r, h)], MAX_PRELOAD_OWNED),
                                             refcount := Raise(old(SlotsNow()).refcount, h))
    {
      hide Suffix;
      Own(r, h);
      refcount := Raise(refcount, h);
    }

    method HasAnySharedState(h: Hash) returns (b: bool)
      ensures b == R.HasAnySharedState(SlotsNow(), DemandNow(), h)
    {
      hide Z.ClaimableFrom;
      b := Z.ClaimableFrom(sharedCached, shared, h, 0).Some? || Count(inflightHashes, h) > 0 || Count(pendingCount, h) > 0
           || h in blocked || h in missing;
    }

    method JoinOrQueue(info: Info)
      modifies this`pending, this`pendingCount, this`missing, this`missingOrder
      ensures DemandNow() == var d := old(DemandNow()); if info.hash in d.missing then R.AddMissing(d, info) else R.PendingPush(d, info)
    {
      hide R.AddMissing, R.PendingPush;
      if info.hash in missing { AddMissing(info); } else { PendingPush(info); }
    }

    method IntakePreload(r: ReqId, hs: seq<Hash>)
      requires Valid()
      modifies Repr()
      ensures Valid() && Models(R.IntakePreload(old(St()), r, hs))
    {
      hide R.IntakeDemand, WorkNow, RingNow, SlotsNow, DemandNow;
      ghost var s := St();
      assert hs[..0] == [];
      for i := 0 to |hs|
        invariant Valid() && St() == R.IntakePreload(s, r, hs[..i])
      {
        assert hs[..i + 1][..i] == hs[..i];
        IntakeDemand(r, hs[i]);
        ModelsOne(R.IntakePreload(s, r, hs[..i + 1]));
      }
      assert hs[..|hs|] == hs;
    }

    method ForgetAllMissing(hs: seq<Hash>)
      modifies this`missing, this`missingOrder
      ensures DemandNow() == R.ForgetAllMissing(old(DemandNow()), hs)
    {
      hide R.ForgetMissing, DemandNow;
      assert hs[..0] == [];
      for i := 0 to |hs|
        invariant DemandNow() == R.ForgetAllMissing(old(DemandNow()), hs[..i])
        modifies this`missing, this`missingOrder
      {
        assert hs[..i + 1][..i] == hs[..i];
        ForgetMissing(hs[i]);
      }
      assert hs[..|hs|] == hs;
    }

    /** A load arrives; `declined` is the verdict of the break-even gate. */
    method IntakeLoad(r: ReqId, hs: seq<Hash>, declined: bool)
      requires Valid()
      modifies Repr()
      ensures Valid() && Models(R.IntakeLoad(old(St()), r, hs, declined))
    {
      hide R.ForgetAllMissing, RingNow, SlotsNow, DemandNow;
      if declined {
        jobs := jobs + [R.NewJob(false, r, hs).(futureSet := true, outcomes := [Declined])];
      } else {
        ForgetAllMissing(hs);
        Activate(R.NewJob(false, r, hs));
      }
    }

    method Activate(job: Job)
      modifies this`jobs, this`active
      ensures WorkNow() == R.Activate(old(WorkNow()), job)
    {
      active := active + [|jobs|];
      jobs := jobs + [job];
    }

    method AnnounceStore(producer: ReqId, h: Hash)
      requires Valid()
      modifies Repr()
      ensures Valid() && Models(R.AnnounceStore(old(St()), producer, h))
    {
      hide Z.Decref, R.Announced, WorkNow, RingNow, DemandNow, SlotsNow;
      SlotsAre();
      if cfg.sharePreload { SharedDecref(producer, h); }
      SlotsAre();
      AnnounceIn(producer, h);
    }

    /** Other requests' demand for the block is parked on the store. */
    method AnnounceIn(producer: ReqId, h: Hash)
      modifies this`missing, this`missingOrder, this`blocked, this`storeInflight
      ensures DemandNow() == R.Announced(old(DemandNow()), refcount, cfg.sharePreload, producer, h)
    {
      hide R.NotOf, R.BlockOnWrite, R.ForgetMissing;
      var missed := if h in missing then missing[h] else [];
      ForgetMissing(h);
      var rearm := if cfg.sharePreload then (if Count(refcount, h) > 0 then missed else []) else R.NotOf(missed, producer);
      if rearm != [] { BlockOnWrite(h, rearm); }
      storeInflight := Raise(storeInflight, h);
    }

    method IntakeStore(r: ReqId, hs: seq<Hash>)
      requires Valid()
      modifies Repr()
      ensures Valid() && Models(R.IntakeStore(old(St()), r, hs))
    {
      hide R.AnnounceStore, WorkNow, RingNow, SlotsNow, DemandNow;
      ghost var s := St();
      assert hs[..0] == [];
      for i := 0 to |hs|
        invariant Valid() && St() == R.AnnounceStores(s, r, hs[..i])
      {
        assert hs[..i + 1][..i] == hs[..i];
        AnnounceStore(r, hs[i]);
        ModelsOne(R.AnnounceStores(s, r, hs[..i + 1]));
      }
      assert hs[..|hs|] == hs;
      Activate(R.NewJob(true, r, hs));
    }

    // ---------- The pump ----------

    /** One more event of a run has happened. */
    lemma Took(s0: State, es: seq<R.Event>, s: State, e: R.Event)
      requires R.IsRun(s0, es) && s == R.After(s0, es) && R.Enabled(s, e) && Models(R.Step(s, e))
      ensures R.IsRun(s0, es + [e]) && St() == R.After(s0, es + [e])
    {
      hide R.IsRun, R.After, R.Enabled, R.Step;
      R.RunAppend(s0, es, e);
      ModelsOne(R.Step(s, e));
    }

    /** Copies that the GPU has finished, oldest first. */
    method DrainCudaCopies() returns (ghost es: seq<R.Event>)
      requires Valid()
      modifies Repr()
      ensures Valid() && R.IsRun(old(St()), es) && St() == R.After(old(St()), es)
      ensures old(pendingCopies) == [] ==> es == [] && St() == old(St())
    {
      hide R.IsRun, R.After, R.CopyDone, WorkNow, SlotsNow, DemandNow;
      ghost var s0 := St();
      es := [];
      R.RunNothing(s0);
      var k := 0;
      while k < |pendingCopies|
        invariant Valid() && R.IsRun(s0, es) && St() == R.After(s0, es)
        invariant s0.ring.pendingCopies == [] ==> es == [] && St() == s0
        decreases |pendingCopies| - k
      {
        var done: bool, tempOk: bool, queued: bool := *, *, *;
        if done {
          ghost var s := St();
          R.CopyDoneShorter(s, k, tempOk, queued);
          OnCopyDone(k, tempOk, queued);
          Took(s0, es, s, R.CopyCompletion(k, tempOk, queued));
          es := es + [R.CopyCompletion(k, tempOk, queued)];
        } else {
          k := k + 1;
        }
      }
    }

    /** Completions taken from the ring: a number, whether the operation did what it should, and whether the
        file it read could be closed. */
    method PollRingCompletions(completions: seq<(nat, bool, bool)>) returns (ghost es: seq<R.Event>)
      requires Valid()
      modifies Repr()
      ensures Valid() && R.IsRun(old(St()), es) && St() == R.After(old(St()), es)
      ensures old(inflight) == map[] ==> es == [] && St() == old(St())
      ensures T.Handled(old(RingNow()), RingNow(), completions, |completions|)
    {
      hide R.IsRun, R.After, R.OpCompletes, T.Left, T.Handled, WorkNow, SlotsNow, DemandNow, RingNow;
      ghost var s0 := St();
      es := [];
      R.RunNothing(s0);
      InflightIs();
      T.HandlesNone(s0.ring, completions);
      for i := 0 to |completions|
        invariant Valid() && R.IsRun(s0, es) && St() == R.After(s0, es)
        invariant s0.ring.inflight == map[] ==> es == [] && St() == s0
        invariant T.Handled(s0.ring, RingNow(), completions, i)
      {
        var (ud, ok, closed) := completions[i];
        ghost var s := St();
        ghost var known := ud in inflight;
        InflightIs();
        if known { T.CompletedLeaves(s, ud, ok, closed); }
        OnCompletion(ud, ok, closed);
        T.HandlesNext(s0.ring, s.ring, RingNow(), completions, i);
        if known {
          Took(s0, es, s, R.OpCompletion(ud, ok, closed));
          es := es + [R.OpCompletion(ud, ok, closed)];
        }
      }
    }

    lemma InflightIs()
      ensures RingNow().inflight == inflight && St().ring == RingNow()
    {
    }

    method DrainReadyLoadFds() returns (ghost es: seq<R.Event>)
      requires Valid()
      modifies Repr()
      ensures Valid() && R.IsRun(old(St()), es) && St() == R.After(old(St()), es)
      ensures readyLoad == [] || dataInflight >= cfg.iodepth || T.SlotsRanOut(old(St()), es)
      ensures active == old(active) && |jobs| == |old(jobs)|
      ensures old(readyLoad) == [] ==> es == [] && St() == old(St())
    {
      hide R.IsRun, R.After, R.DrainLoadFd, T.SlotsRanOut, Z.ReserveForeground, DemandNow;
      ghost var s0 := St();
      es := [];
      R.RunNothing(s0);
      var more := true;
      while more && readyLoad != [] && dataInflight < cfg.iodepth
        invariant Valid() && R.IsRun(s0, es) && St() == R.After(s0, es)
        invariant active == old(active) && |jobs| == |old(jobs)|
        invariant s0.ring.readyLoad == [] ==> es == [] && St() == s0
        invariant more || T.SlotsRanOut(s0, es)
        decreases if more then |readyLoad| + 1 else 0
      {
        var queued: bool, closed: bool := *, *;
        ghost var s := St();
        R.LoadFdKeepsJobs(s, queued, closed);
        more := DrainLoadFd(queued, closed);
        if !more { T.RanOutNow(s0, es, R.ReadLoadFd(queued, closed)); }
        Took(s0, es, s, R.ReadLoadFd(queued, closed));
        es := es + [R.ReadLoadFd(queued, closed)];
      }
    }

    /** The ring's answer should the load's next file be opened: a preload that is promoted can be opened. */
    method OpenAnswer(j: JobId) returns (queued: bool)
      requires R.Unfinished(WorkNow(), j)
      ensures R.Promotes(St(), j) ==> queued
    {
      hide RingNow, R.CanOpen, Z.ClaimableFrom;
      var h := R.FileRefOf(jobs, j).hash;
      queued := *;
      if cfg.sharePreload && Z.ClaimableFrom(sharedCached, shared, h, 0).None? && Count(pendingCount, h) > 0 { queued := true; }
    }

    /** Starts the files of one load until it is done or has to wait for an open. */
    method ScheduleLoadsOf(j: JobId) returns (ghost es: seq<R.Event>)
      requires Valid() && j in active && j < |jobs| && !jobs[j].isStore
      modifies Repr()
      ensures Valid() && R.IsRun(old(St()), es) && St() == R.After(old(St()), es)
      ensures active == old(active) && |jobs| == |old(jobs)|
      ensures !R.Schedulable(old(WorkNow()), j) ==> es == [] && St() == old(St())
      ensures R.Schedulable(old(WorkNow()), j) && R.CanOpen(old(St())) ==> P.Progress(old(St()), es)
      ensures R.Schedulable(WorkNow(), j) ==> R.LoadStalls(St(), j)
    {
      hide R.IsRun, R.After, R.ScheduleLoad, R.Promotes, R.LoadStalls, R.CanOpen, P.Progress, SlotsNow, DemandNow, RingNow;
      ghost var s0 := St();
      es := [];
      R.RunNothing(s0);
      var more := true;
      while more && !jobs[j].failed && jobs[j].next < |jobs[j].hashes|
        invariant Valid() && R.IsRun(s0, es) && St() == R.After(s0, es)
        invariant active == old(active) && |jobs| == |old(jobs)| && !jobs[j].isStore && jobs[j].hashes == old(jobs[j].hashes)
        invariant if es == [] then more && St() == s0 else R.Schedulable(s0.work, j)
        invariant es == [] || P.Progress(s0, es) || !R.CanOpen(s0)
        invariant !more ==> R.Unfinished(WorkNow(), j) && R.LoadStalls(St(), j)
        decreases |jobs[j].hashes| - jobs[j].next, more
      {
        ghost var s := St();
        var queued := OpenAnswer(j);
        R.LoadProgress(s, j, queued);
        more := ScheduleLoad(j, queued);
        P.LoadMove(s0, es, s, j, queued);
        Took(s0, es, s, R.LoadNext(j, queued));
        es := es + [R.LoadNext(j, queued)];
      }
    }

    /** Starts the files of one store until it is done or the budget or the slots run out. */
    method ScheduleStoresOf(j: JobId) returns (ghost es: seq<R.Event>)
      requires Valid() && j in active && j < |jobs| && jobs[j].isStore
      modifies Repr()
      ensures Valid() && R.IsRun(old(St()), es) && St() == R.After(old(St()), es)
      ensures active == old(active) && |jobs| == |old(jobs)|
      ensures !R.Schedulable(old(WorkNow()), j) ==> es == [] && St() == old(St())
      ensures R.Schedulable(old(WorkNow()), j) && P.Ready(old(St())) ==> P.Progress(old(St()), es)
      ensures R.Schedulable(WorkNow(), j) ==> dataInflight >= cfg.iodepth || T.SlotsRanOut(old(St()), es)
    {
      hide R.IsRun, R.After, R.ScheduleStore, R.CanOpen, P.Progress, T.SlotsRanOut, Z.ReserveForeground, DemandNow;
      ghost var s0 := St();
      es := [];
      R.RunNothing(s0);
      var more := true;
      while more && !jobs[j].failed && jobs[j].next < |jobs[j].hashes| && dataInflight < cfg.iodepth
        invariant Valid() && R.IsRun(s0, es) && St() == R.After(s0, es)
        invariant active == old(active) && |jobs| == |old(jobs)| && jobs[j].isStore && jobs[j].hashes == old(jobs[j].hashes)
        invariant if es == [] then more && St() == s0 else R.Schedulable(s0.work, j)
        invariant es == [] || P.Progress(s0, es) || Z.ReserveForeground(s0.slots).1.None?
        invariant more || T.SlotsRanOut(s0, es)
        decreases |jobs[j].hashes| - jobs[j].next, more
      {
        var launched: bool := *;
        ghost var s := St();
        R.StoreProgress(s, j, launched);
        more := ScheduleOne(j, launched);
        if !more { T.RanOutNow(s0, es, R.StoreNext(j, launched)); }
        P.StoreMove(s0, es, s, j, launched);
        Took(s0, es, s, R.StoreNext(j, launched));
        es := es + [R.StoreNext(j, launched)];
      }
    }

    method ScheduleJobs(stores: bool) returns (ghost es: seq<R.Event>)
      requires Valid() && forall j :: j in active ==> j < |jobs|
      modifies Repr()
      ensures Valid() && R.IsRun(old(St()), es) && St() == R.After(old(St()), es)
      ensures active == old(active) && |jobs| == |old(jobs)|
      ensures !P.AnyToStart(old(WorkNow()), |old(active)|, stores) ==> es == [] && St() == old(St())
      ensures P.AnyToStart(old(WorkNow()), |old(active)|, stores) && P.Ready(old(St())) ==> P.Progress(old(St()), es)
    {
      hide R.IsRun, R.After, R.Schedulable, P.Ready, P.Progress, P.AnyToStart, WorkNow, SlotsNow, DemandNow, RingNow;
      ghost var s0 := St();
      es := [];
      R.RunNothing(s0);
      P.AnyNone(s0.work, stores);
      WorkIs();
      for k := 0 to |active|
        invariant Valid() && R.IsRun(s0, es) && St() == R.After(s0, es)
        invariant active == old(active) && |jobs| == |old(jobs)| && k <= |s0.work.active|
        invariant !P.AnyToStart(s0.work, k, stores) ==> es == [] && St() == s0
        invariant P.AnyToStart(s0.work, k, stores) && P.Ready(s0) ==> P.Progress(s0, es)
      {
        var j := active[k];
        assert j in old(active);
        WorkIs();
        ghost var more := ScheduleJob(j, stores);
        R.RunConcat(s0, es, more);
        P.TurnOf(s0, es, more, k, stores);
        es := es + more;
      }
    }

    lemma WorkIs()
      ensures St().work == WorkNow() && WorkNow().active == active && WorkNow().jobs == jobs
    {
    }

    /** The job's turn in the pass over loads, or over stores. */
    method ScheduleJob(j: JobId, stores: bool) returns (ghost es: seq<R.Event>)
      requires Valid() && j in active && j < |jobs|
      modifies Repr()
      ensures Valid() && R.IsRun(old(St()), es) && St() == R.After(old(St()), es)
      ensures active == old(active) && |jobs| == |old(jobs)|
      ensures var toStart := R.Schedulable(old(WorkNow()), j) && old(jobs[j].isStore) == stores;
        && (!toStart ==> es == [] && St() == old(St()))
        && (toStart && P.Ready(old(St())) ==> P.Progress(old(St()), es))
    {
      hide R.IsRun, R.After, P.Progress, R.CanOpen, R.HasDataBudget, Z.ReserveForeground, SlotsNow, DemandNow, RingNow;
      es := [];
      R.RunNothing(St());
      if !jobs[j].failed && jobs[j].isStore == stores {
        if stores { es := ScheduleStoresOf(j); } else { es := ScheduleLoadsOf(j); }
      }
    }

    method DrainReadyPreloadFds() returns (ghost es: seq<R.Event>)
      requires Valid()
      modifies Repr()
      ensures Valid() && R.IsRun(old(St()), es) && St() == R.After(old(St()), es)
      ensures old(readyPreload) == [] ==> es == [] && St() == old(St())
      ensures readyPreload == [] || T.PreloadStayed(old(St()), es)
    {
      hide R.IsRun, R.After, R.DrainPreloadFd, T.PreloadStayed, WorkNow, DemandNow, SlotsNow;
      ghost var s0 := St();
      es := [];
      R.RunNothing(s0);
      var more := true;
      while more && readyPreload != []
        invariant Valid() && R.IsRun(s0, es) && St() == R.After(s0, es)
        invariant s0.ring.readyPreload == [] ==> es == [] && St() == s0
        invariant more || T.PreloadStayed(s0, es)
        decreases if more then |readyPreload| + 1 else 0
      {
        var queued: bool, closed: bool := *, *;
        ghost var s := St();
        more := DrainPreloadFd(queued, closed);
        Took(s0, es, s, R.PreloadFd(queued, closed));
        if !more { T.StayedNow(s0, es, R.PreloadFd(queued, closed)); }
        es := es + [R.PreloadFd(queued, closed)];
      }
    }

    method DrainCancelledPending() returns (ghost es: seq<R.Event>)
      requires Valid()
      modifies Repr()
      ensures Valid() && R.IsRun(old(St()), es) && St() == R.After(old(St()), es)
      ensures WorkNow() == old(WorkNow()) && copyReady == old(copyReady)
      ensures pending == [] || Count(pendingCancel, pending[0].hash) <= 0
    {
      hide R.IsRun, R.After, WorkNow, RingNow, SlotsNow;
      ghost var s0 := St();
      es := [];
      R.RunNothing(s0);
      while pending != [] && Count(pendingCancel, pending[0].hash) > 0
        invariant Valid() && R.IsRun(s0, es) && St() == R.After(s0, es)
        invariant WorkNow() == old(WorkNow()) && copyReady == old(copyReady)
        decreases |pending|
      {
        ghost var s := St();
        DropCancelled();
        Took(s0, es, s, R.CancelledPending);
        es := es + [R.CancelledPending];
      }
    }

    method MaySpeculate() returns (b: bool)
      ensures b == R.MaySpeculate(St()) && (b ==> pending != [])
    {
      hide R.CanOpen, WorkNow, RingNow;
      var canOpen := CanOpen();
      b := pending != [] && canOpen && cachedTotal + inflightTotal < cfg.MaxPreloadSlots();
    }

    method SpeculatePreloads() returns (ghost es: seq<R.Event>)
      requires Valid() && !R.RealLoadPressure(St())
      modifies Repr()
      ensures Valid() && R.IsRun(old(St()), es) && St() == R.After(old(St()), es)
      ensures WorkNow() == old(WorkNow()) && copyReady == old(copyReady)
      ensures !R.MaySpeculate(St())
    {
      hide R.IsRun, R.After, R.Speculate, R.MaySpeculate, R.RealLoadPressure, R.Enabled, R.Step, WorkNow, RingNow, SlotsNow, DemandNow;
      ghost var s0 := St();
      es := [];
      R.RunNothing(s0);
      var more := MaySpeculate();
      while more
        invariant Valid() && R.IsRun(s0, es) && St() == R.After(s0, es)
        invariant more == R.MaySpeculate(St()) && (more ==> pending != []) && !R.RealLoadPressure(St())
        invariant WorkNow() == old(WorkNow()) && copyReady == old(copyReady)
        decreases |pending|, more
      {
        var queued: bool := *;
        ghost var s := St();
        Speculate(queued);
        R.NoPressureFromPreloads(s, queued);
        R.SpeculationNow(s, queued);
        Took(s0, es, s, R.SpeculativeOpen(queued));
        es := es + [R.SpeculativeOpen(queued)];
        more := MaySpeculate();
      }
    }

    /** One scheduling pass: open files of loads, loads, stores, then preloads while no load wants the disk. */
    method ScheduleWork() returns (ghost es: seq<R.Event>)
      requires Valid() && forall j :: j in active ==> j < |jobs|
      modifies Repr()
      ensures Valid() && R.IsRun(old(St()), es) && St() == R.After(old(St()), es)
      ensures P.Rests(old(St())) && P.AnyJob(old(WorkNow())) && P.Ready(old(St())) ==> P.Progress(old(St()), es)
      ensures P.Rests(old(St())) && !P.AnyJob(old(WorkNow())) ==> WorkNow() == old(WorkNow()) && copyReady == []
      ensures R.MaySpeculate(St()) ==> R.RealLoadPressure(St())
    {
      hide R.IsRun, R.After, R.RealLoadPressure, R.MaySpeculate, P.AnyJob, P.Ready, P.Progress, WorkNow, SlotsNow, DemandNow;
      ghost var s0 := St();
      es := DrainFdsThenJobs();
      ghost var more := DrainReadyPreloadFds();
      R.RunConcat(s0, es, more);
      P.ProgressMore(s0, es, more);
      es := es + more;
      more := DrainCancelledPending();
      R.RunConcat(s0, es, more);
      P.ProgressMore(s0, es, more);
      es := es + more;
      var pressure := HasRealLoadPressure();
      if !pressure {
        more := SpeculatePreloads();
        R.RunConcat(s0, es, more);
        P.ProgressMore(s0, es, more);
        es := es + more;
      }
    }

    method DrainFdsThenJobs() returns (ghost es: seq<R.Event>)
      requires Valid() && forall j :: j in active ==> j < |jobs|
      modifies Repr()
      ensures Valid() && R.IsRun(old(St()), es) && St() == R.After(old(St()), es)
      ensures old(readyLoad) == [] && P.AnyJob(old(WorkNow())) && P.Ready(old(St())) ==> P.Progress(old(St()), es)
      ensures old(readyLoad) == [] && !P.AnyJob(old(WorkNow())) ==> es == [] && St() == old(St())
    {
      hide R.IsRun, R.After, P.AnyToStart, P.Ready, P.Progress, WorkNow, SlotsNow, DemandNow, RingNow;
      ghost var s0 := St();
      WorkIs();
      es := DrainReadyLoadFds();
      WorkIs();
      ghost var more := ScheduleJobs(false);
      R.RunConcat(s0, es, more);
      P.PhasesIf(s0, es, more);
      es := es + more;
      WorkIs();
      more := ScheduleJobs(true);
      R.RunConcat(s0, es, more);
      P.PhasesIf(s0, es, more);
      es := es + more;
    }

    /** One turn of the reactor's thread, with the completions the ring has ready. If nothing is outstanding and some
        job is active, the turn starts a file or drops a job. */
    method PumpOnce(completions: seq<(nat, bool, bool)>) returns (ghost es: seq<R.Event>)
      requires Valid() && Safety.Inv(St())
      modifies Repr()
      ensures Valid() && R.IsRun(old(St()), es) && St() == R.After(old(St()), es)
      ensures Safety.Inv(St()) && copyReady == [] && forall j :: j in active ==> !R.Finished(WorkNow(), j)
      ensures Theorems.Reached(old(St())) && P.Rests(old(St())) && P.Positive(cfg) && old(active) != [] ==> P.Progress(old(St()), es)
    {
      hide R.IsRun, R.After, R.Finished, Safety.Inv, Theorems.Reached, P.Rests, P.Progress, P.AnyJob, P.Ready, WorkNow, SlotsNow, DemandNow, RingNow;
      ghost var s0 := St();
      WorkIs();
      ghost var resting := Theorems.Reached(s0) && P.Rests(s0) && P.Positive(cfg) && active != [];
      if resting { RestingTurn(); }
      es := Complete(completions);
      Safe(s0, es);
      ghost var more := ScheduleWork();
      R.RunConcat(s0, es, more);
      P.PhasesIf(s0, es, more);
      es := es + more;
      WorkIs();
      ghost var last := FlushAndFinish();
      R.RunConcat(s0, es, last);
      if resting { P.LastPhase(s0, es, last); }
      es := es + last;
      Safe(s0, es);
    }

    /** With nothing outstanding some job can be started, or one is finished. */
    lemma RestingTurn()
      requires Theorems.Reached(St()) && P.Rests(St()) && P.Positive(cfg) && active != []
      ensures P.Ready(St())
      ensures P.AnyJob(WorkNow()) || exists j :: j in active && R.Finished(WorkNow(), j)
    {
      hide Theorems.Reached, P.Rests, P.Ready, P.AnyJob, R.Finished;
      P.RestIsReady(St());
      P.SomeoneMoves(St());
    }

    /** Whatever happened, the state is sound and every active job is known. */
    lemma Safe(s0: State, es: seq<R.Event>)
      requires Safety.Inv(s0) && R.IsRun(s0, es) && St() == R.After(s0, es)
      ensures Safety.Inv(St()) && forall j :: j in active ==> j < |jobs|
    {
      hide R.IsRun, R.After;
      Runs.RunKeeps(s0, es);
      Moves.ActiveKnown(St());
    }

    method Complete(completions: seq<(nat, bool, bool)>) returns (ghost es: seq<R.Event>)
      requires Valid()
      modifies Repr()
      ensures Valid() && R.IsRun(old(St()), es) && St() == R.After(old(St()), es)
      ensures P.Rests(old(St())) ==> es == [] && St() == old(St())
    {
      hide R.IsRun, R.After, WorkNow, SlotsNow, DemandNow;
      ghost var s0 := St();
      es := DrainCudaCopies();
      ghost var more := PollRingCompletions(completions);
      R.RunConcat(s0, es, more);
      es := es + more;
    }

    method FlushAndFinish() returns (ghost es: seq<R.Event>)
      requires Valid()
      modifies Repr()
      ensures Valid() && R.IsRun(old(St()), es) && St() == R.After(old(St()), es)
      ensures old(copyReady) == [] && (exists j :: j in old(active) && R.Finished(old(WorkNow()), j)) ==> P.Progress(old(St()), es)
      ensures copyReady == [] && forall j :: j in active ==> !R.Finished(WorkNow(), j)
    {
      hide R.IsRun, R.After, R.Finished, P.Progress, WorkNow, SlotsNow, DemandNow, RingNow;
      ghost var s0 := St();
      WorkIs();
      es := FlushIfReady();
      ghost var s := St();
      FinishOnce();
      Took(s0, es, s, R.Finish);
      if s == s0 && exists j :: j in s0.work.active && R.Finished(s0.work, j) { P.DropMove(s0); }
      P.PhasesIf(s0, es, [R.Finish]);
      es := es + [R.Finish];
    }

    method FlushIfReady() returns (ghost es: seq<R.Event>)
      requires Valid()
      modifies Repr()
      ensures Valid() && R.IsRun(old(St()), es) && St() == R.After(old(St()), es)
      ensures old(copyReady) == [] ==> es == [] && St() == old(St())
      ensures copyReady == []
    {
      hide R.IsRun, R.After, R.FlushCopies, WorkNow, SlotsNow, DemandNow;
      ghost var s0 := St();
      es := [];
      R.RunNothing(s0);
      if copyReady != [] {
        var launched: bool := *;
        FlushCopyBatch(launched);
        Took(s0, es, s0, R.Flush(launched));
        es := es + [R.Flush(launched)];
      }
    }

    method FinishOnce()
      requires Valid()
      modifies this`active
      ensures Valid() && Models(R.Step(old(St()), R.Finish))
      ensures forall j :: j in active ==> !R.Finished(WorkNow(), j)
    {
      hide R.Remaining, R.Drained, SlotsNow, DemandNow, RingNow;
      T.NoneFinished(WorkNow(), active, R.Remaining(WorkNow(), active));
      FinishJobs();
    }
  }
}
