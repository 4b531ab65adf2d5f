/** What stores do, step by step: announcing, copying from the GPU, writing, and the end of each. */
module ReactorStores {
  import opened Outcomes
  import opened OrderedKeys
  import opened ReactorState
  import opened ReactorSlots
  import opened Reactor
  import opened ReactorTokens
  import opened ReactorTheorems
  import opened ReactorGuarantees
  import opened ReactorOutcomes
  import opened ReactorQueues
  import opened ReactorBytes
  import opened ReactorCompletions
  import opened ReactorRetention
  import opened ReactorRoutes
  import SC = StagingCache

  // ---------- The end of a store ----------

  /** One store of block `h` is over. Nothing else happens unless it was the last announced one; then the demand
      parked on it is gone from where it was. It is queued again if the store succeeded and the block is not in the
      cache: all of it in order, or one entry for all with shared preloading. With shared preloading nobody wants a
      block any longer that the cache has got. */
  ghost predicate StoreOver(d: Demand, d': Demand, z: Slots, z': Slots, h: Hash, ok: bool) {
    var parked := Marks(d.blocked, h);
    var cached := z.cfg.hasCache && h in z.cache.slots;
    if Count(d.storeInflight, h) > 1 then
      z' == z && d' == d.(storeInflight := d.storeInflight[h := Count(d.storeInflight, h) - 1])
    else
      var queued := if !ok || parked == [] || cached then [] else if z.cfg.sharePreload then [parked[0]] else parked;
      && d' == d.(storeInflight := d.storeInflight - {h}, blocked := d.blocked - {h}, pending := d.pending + queued, pendingCount := d'.pendingCount)
      && (forall g: Hash :: Count(d'.pendingCount, g) == Count(d.pendingCount, g) + |Of(queued, InfoKey(), g)|)
      && (if ok && parked != [] && cached && z.cfg.sharePreload then NobodyWants(z, z', h) else z' == z)
  }

  ghost predicate NobodyWants(z: Slots, z': Slots, h: Hash) {
    && z' == z.(refcount := z.refcount - {h}, owned := z'.owned)
    && forall p :: p in z'.owned <==> p in z.owned && p.1 != h
  }

  lemma Forgotten(z: Slots, h: Hash)
    ensures NobodyWants(z, ForgetDemand(z, h), h)
  {
    hide PurgeOwned;
    PurgedIff(z.owned, h);
  }

  lemma NoneQueued(d: Demand)
    ensures forall g: Hash :: Count(d.pendingCount, g) == Count(d.pendingCount, g) + |Of([], InfoKey(), g)|
    ensures d.pending + [] == d.pending
  {
  }

  lemma OneQueued(d: Demand, info: Info)
    ensures var d' := PendingPush(d, info);
      && d' == d.(pending := d.pending + [info], pendingCount := d'.pendingCount)
      && forall g: Hash :: Count(d'.pendingCount, g) == Count(d.pendingCount, g) + |Of([info], InfoKey(), g)|
  {
    forall g: Hash { OfOne(info, InfoKey(), g); }
  }

  lemma StoreIsOver(s: State, h: Hash, ok: bool)
    ensures var s' := ReleaseStoreInflight(s, h, ok);
      s' == s.(slots := s'.slots, demand := s'.demand) && StoreOver(s.demand, s'.demand, s.slots, s'.slots, h, ok)
  {
    hide PendingPush, PendingPushAll, ForgetDemand, NobodyWants, Of;
    var parked := Marks(s.demand.blocked, h);
    var d1 := s.demand.(storeInflight := Lower(s.demand.storeInflight, h), blocked := s.demand.blocked - {h});
    Forgotten(s.slots, h);
    NoneQueued(d1);
    PushesAll(d1, parked);
    PushAllFrame(d1, parked);
    if parked != [] { OneQueued(d1, parked[0]); }
  }

  lemma LoggedEnd(s: State, f: FileRef, ok: bool)
    requires f.job < |s.work.jobs|
    ensures FileTerminal(s.work, f, ok).log == s.work.log + [FileEnd(f, ok)]
  {
    LoggedFile(s.work, f, ok);
  }

  /** A store's file has failed: its slot is free, the file has ended, the store is over. */
  ghost predicate StoreFails(s: State, s': State, f: FileRef, x: Slot) {
    && s'.work.log == s.work.log + [FileEnd(f, false)]
    && StoreOver(s.demand, s'.demand, s.slots.(free := PutBack(s.slots, x)), s'.slots, f.hash, false)
  }

  lemma FailedStore(s: State, f: FileRef, x: Slot)
    requires f.job < |s.work.jobs|
    ensures var s' := StoreFailed(s, f, x);
      s' == s.(work := s'.work, slots := s'.slots, demand := s'.demand) && StoreFails(s, s', f, x)
      && s'.work == FileTerminal(s.work, f, false)
  {
    hide FileTerminal, ReleaseStoreInflight, StoreOver;
    LoggedEnd(s, f, false);
    var s1 := s.(slots := Release(s.slots, x), work := FileTerminal(s.work, f, false));
    assert s1.slots == s.slots.(free := PutBack(s.slots, x));
    StoreIsOver(s1, f.hash, false);
  }

  /** A write that did what it should: the file is done, its slot goes to the cache if that keeps it, and the store is
      over. One that did not: the file has failed and the slot is free. */
  lemma WriteCompletes(s: State, ud: nat, ok: bool, closed: bool)
    requires Reached(s) && ud in s.ring.inflight && s.ring.inflight[ud].Write?
    ensures var f, x, s' := s.ring.inflight[ud].file, s.ring.inflight[ud].slot, Step(s, OpCompletion(ud, ok, closed));
      && s' == s.(work := s'.work, slots := s'.slots, demand := s'.demand,
                  ring := s.ring.(inflight := s.ring.inflight - {ud}, dataInflight := s.ring.dataInflight - 1))
      && s'.work.log == s.work.log + [FileEnd(f, ok)]
      && (ok ==> exists z :: GivenBack(s.slots, z, f.hash, x) && StoreOver(s.demand, s'.demand, z, s'.slots, f.hash, true))
      && (!ok ==> StoreFails(s, s', f, x))
  {
    hide Reached, FileTerminal, ReleaseStoreInflight, StoreOver, GivenBack, StoreFailed, ReleaseOrCache, SC.Agree;
    var f, x := s.ring.inflight[ud].file, s.ring.inflight[ud].slot;
    OpIsLive(s, ud, f);
    var s1 := s.(ring := AddData(s.ring.(inflight := s.ring.inflight - {ud}), -1));
    if ok {
      CacheNow(s);
      GoesBack(s.slots, f.hash, x);
      LoggedEnd(s, f, true);
      StoreIsOver(s1.(slots := ReleaseOrCache(s1.slots, f.hash, x), work := FileTerminal(s1.work, f, true)), f.hash, true);
    } else {
      FailedStore(s1, f, x);
    }
  }

  /** A store's copy from the GPU has ended: the slot has the block's bytes and the file is written from it; if that cannot
      be begun, the file has failed and the slot is free. */
  lemma StoreCopyCompletes(s: State, k: nat, tempOk: bool, queued: bool)
    requires Reached(s) && k < |s.ring.pendingCopies| && s.ring.pendingCopies[k].StoreCopy?
    ensures var f, x, s' := s.ring.pendingCopies[k].file, s.ring.pendingCopies[k].slot, Step(s, CopyCompletion(k, tempOk, queued));
      var g := s.ring.(pendingCopies := RemoveAt(s.ring.pendingCopies, k));
      if tempOk && queued then
        s' == s.(ring := g.(inflight := g.inflight[g.nextUd := Write(f, x)], nextUd := g.nextUd + 1), memory := s.memory[x := f.hash])
      else
        && s' == s.(work := s'.work, slots := s'.slots, demand := s'.demand, memory := s.memory[x := f.hash],
                    ring := g.(dataInflight := g.dataInflight - 1, nextUd := g.nextUd + One(tempOk)))
        && StoreFails(s, s', f, x)
  {
    hide Reached, StoreFailed, StoreOver;
    var f, x := s.ring.pendingCopies[k].file, s.ring.pendingCopies[k].slot;
    PendingIsLive(s, k);
    if !(tempOk && queued) {
      var g := s.ring.(pendingCopies := RemoveAt(s.ring.pendingCopies, k));
      var s1 := s.(ring := AddData(if tempOk then Refused(g) else g, -1), memory := s.memory[x := f.hash]);
      FailedStore(s1, f, x);
    }
  }

  /** A store's next file: nothing happens if no slot can be had. Else its copy into the slot is begun; if that is
      refused, the file has failed and the slot is free. */
  lemma StoreNextDoes(s: State, j: JobId, launched: bool)
    requires Reached(s) && Enabled(s, StoreNext(j, launched))
    ensures var f, s' := Coming(s.work, j), Step(s, StoreNext(j, launched));
      exists z, x :: Foreground(s.slots, z, x)
        && (x.None? ==> s' == s)
        && (x.Some? && launched ==>
              && Begun(s.work, s'.work, j)
              && s' == s.(work := s'.work, slots := z, memory := s.memory - {x.value},
                          ring := s.ring.(dataInflight := s.ring.dataInflight + 1, pendingCopies := s.ring.pendingCopies + [StoreCopy(f, x.value)])))
        && (x.Some? && !launched ==>
              && OneMoreFile(s.work, s'.work, j) && s' == s.(work := s'.work, slots := s'.slots, demand := s'.demand)
              && StoreFails(s.(slots := z), s', f, x.value))
  {
    hide Reached, StoreFailed, StoreOver, ReserveForeground, Foreground, StartFile, FileTerminal, OneMoreFile, StoreFails, InRange;
    var f := Coming(s.work, j);
    InRangeNow(s);
    ForegroundOrder(s.slots);
    var (z, x) := ReserveForeground(s.slots);
    NoSlotNoChange(s.slots, z);
    BegunIs(s.work, j);
    StartedOne(s.work, j);
    hide Begun;
    if x.Some? {
      var s1 := s.(slots := z, work := StartFile(s.work, j));
      StartedLog(s.work, j);
      FailedStore(s1, f, x.value);
      SameFailure(s.(slots := z), s1, StoreFailed(s1, f, x.value), f, x.value);
    }
  }

  lemma SameFailure(s: State, s1: State, s': State, f: FileRef, x: Slot)
    requires s1.work.log == s.work.log && s1.demand == s.demand && s1.slots == s.slots && StoreFails(s1, s', f, x)
    ensures StoreFails(s, s', f, x)
  {
    hide StoreOver;
  }

  lemma NoSlotNoChange(z: Slots, z': Slots)
    ensures Foreground(z, z', None) ==> z' == z
  {
    hide TakesCached, TakesShared;
  }
}
