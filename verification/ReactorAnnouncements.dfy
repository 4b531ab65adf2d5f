/** What a request does on arrival: preload demand, loads and announced stores. */
module ReactorAnnouncements {
  import opened Outcomes
  import opened OrderedKeys
  import opened ReactorState
  import opened ReactorSlots
  import opened Reactor
  import opened ReactorTokens
  import opened ReactorSlotSafety
  import opened ReactorDemandSafety
  import opened ReactorMoves
  import opened ReactorDemandMoves
  import opened ReactorSafety
  import opened ReactorRuns
  import opened ReactorTheorems
  import opened ReactorGuarantees
  import opened ReactorOutcomes
  import opened ReactorQueues
  import opened ReactorCompletions
  import opened ReactorRetention
  import opened ReactorRoutes
  import SC = StagingCache

  // ---------- A request that no longer wants a block ----------

  /** Slot `x`, which nobody wants any longer, is given up: at once, or when the copies that read it have ended. */
  ghost predicate LetGoOf(z: Slots, z': Slots, h: Hash, x: Slot) {
    var z1 := z.(sharedCached := Without(z.sharedCached, x), cachedTotal := z.cachedTotal - 1);
    && x in z.sharedCached && x in z.shared && z.shared[x].hash == h
    && (if z.shared[x].copies > 0 then z' == z1.(shared := z.shared[x := z.shared[x].(cached := false)])
        else GivenBack(z1.(shared := z.shared - {x}), z', h, x))
  }

  /** Request `r` does not want block `h` any longer. If it was on record, the demand is one less, and with the last
      demand the block's claimable slot goes. */
  ghost predicate Withdraws(z: Slots, z': Slots, r: ReqId, h: Hash) {
    if (r, h) !in z.owned then z' == z
    else
      var z1 := z.(owned := Without(z.owned, (r, h)), refcount := z'.refcount);
      && DemandMet(z, z'.refcount, r, h)
      && (if DemandAfter(z, r, h) > 0 || !IsCached(z, h) then z' == z1 else exists x :: LetGoOf(z1, z', h, x))
  }

  lemma UncachedSlot(z: Slots, h: Hash, x: Slot)
    requires x in z.sharedCached && x in z.shared && z.shared[x].hash == h && SC.Agree(z.cache)
    ensures LetGoOf(z, MaybeReleaseShared(Uncache(z, x), x), h, x)
  {
    hide ReleaseOrCache, Without, GivenBack, SC.Agree;
    var z1 := z.(sharedCached := Without(z.sharedCached, x), cachedTotal := z.cachedTotal - 1);
    assert Uncache(z, x) == z1.(shared := z.shared[x := z.shared[x].(cached := false)]);
    assert z.shared[x := z.shared[x].(cached := false)] - {x} == z.shared - {x};
    GoesBack(z1.(shared := z.shared - {x}), h, x);
  }

  lemma UncachedFrame(z: Slots, z': Slots, h: Hash, x: Slot)
    requires LetGoOf(z, z', h, x)
    ensures z'.refcount == z.refcount
  {
    hide Retained;
  }

  lemma WithdrawsDemand(s: State, held: multiset<Token>, r: ReqId, h: Hash)
    requires Sound(s, held) && s.Cfg().sharePreload
    ensures Withdraws(s.slots, Decref(s.slots, r, h), r, h)
  {
    hide Sound, Outside, SlotSound, Owners, DemandCounted, Without, LetGoOf, MaybeReleaseShared, Uncache, Claimable, SC.Agree, DemandMet, IsCached;
    var z := s.slots;
    if (r, h) in z.owned {
      SlotNow(s, held);
      CountedIn(s, held);
      WithdrawnCounts(z.owned, z.refcount, r, h);
      MetIs(z, r, h);
      CacheAgrees(z, s.memory, Outside(s) + held);
      var z2 := z.(owned := Without(z.owned, (r, h)), refcount := z.refcount - {h});
      ClaimableOnlyShared(z, z2, h);
      ClaimsAre(s, held, h);
      if Count(z.refcount, h) <= 1 && Claimable(z, h).Some? {
        var x := Claimable(z, h).value;
        UncachedSlot(z2, h, x);
        UncachedFrame(z2, MaybeReleaseShared(Uncache(z2, x), x), h, x);
      }
    }
  }

  lemma ClaimsAre(s: State, held: multiset<Token>, h: Hash)
    requires Sound(s, held)
    ensures IsCached(s.slots, h) <==> Claimable(s.slots, h).Some?
    ensures Claimable(s.slots, h).Some? ==>
      var x := Claimable(s.slots, h).value; x in s.slots.sharedCached && x in s.slots.shared && s.slots.shared[x].hash == h
  {
    hide Sound, Outside, SlotSound, Claimable, IsCached;
    SlotNow(s, held);
    ClaimableMeansClaimed(s.slots, s.memory, Outside(s) + held, h);
  }

  lemma MetIs(z: Slots, r: ReqId, h: Hash)
    requires (r, h) in z.owned && forall k: Hash :: Count(Withdrawn(z.refcount, h), k) == Count(z.refcount, k) - One(k == h)
    ensures DemandMet(z, Withdrawn(z.refcount, h), r, h)
    ensures DemandAfter(z, r, h) > 0 <==> Count(z.refcount, h) > 1
    ensures Withdrawn(z.refcount, h) == if Count(z.refcount, h) > 1 then z.refcount[h := z.refcount[h] - 1] else z.refcount - {h}
  {
  }

  // ---------- Announced stores ----------

  /** The demands of other requests than `r`, in order. */
  function Others(infos: seq<Info>, r: ReqId): seq<Info> {
    if infos == [] then [] else (if infos[0].reqId == r then [] else [infos[0]]) + Others(infos[1..], r)
  }

  lemma {:induction false} OthersLast(infos: seq<Info>, i: Info, r: ReqId)
    ensures Others(infos + [i], r) == Others(infos, r) + if i.reqId == r then [] else [i]
  {
    if infos == [] {
      assert [i][1..] == [];
    } else {
      assert (infos + [i])[1..] == infos[1..] + [i];
      OthersLast(infos[1..], i, r);
    }
  }

  lemma {:induction false} OthersAre(infos: seq<Info>, r: ReqId)
    ensures NotOf(infos, r) == Others(infos, r)
  {
    if infos != [] {
      OthersAre(infos[..|infos| - 1], r);
      assert infos == infos[..|infos| - 1] + [infos[|infos| - 1]];
      OthersLast(infos[..|infos| - 1], infos[|infos| - 1], r);
    }
  }

  /** Request `r` announces that it will store block `h`. With shared preloading it does not want the block any longer. The
      block is not known to be missing any longer; who asked for it while it was waits for the store, except the
      announcing request. */
  ghost predicate Announces(s: State, s': State, r: ReqId, h: Hash) {
    var d, share := s.demand, s.Cfg().sharePreload;
    var missed := Marks(d.missing, h);
    var waits := if share then (if Count(s'.slots.refcount, h) > 0 then missed else []) else Others(missed, r);
    && (if share then Withdraws(s.slots, s'.slots, r, h) else s'.slots == s.slots)
    && s' == s.(slots := s'.slots,
                demand := d.(missing := d.missing - {h}, missingOrder := Without(d.missingOrder, h),
                             storeInflight := d.storeInflight[h := Count(d.storeInflight, h) + 1],
                             blocked := if waits == [] then d.blocked else d.blocked[h := Marks(d.blocked, h) + waits]))
  }

  lemma AnnouncesOne(s: State, held: multiset<Token>, r: ReqId, h: Hash)
    requires Sound(s, held)
    ensures Announces(s, AnnounceStore(s, r, h), r, h)
  {
    hide Sound, Decref, Withdraws, NotOf, Others, Without;
    if s.Cfg().sharePreload { WithdrawsDemand(s, held, r, h); }
    OthersAre(Marks(s.demand.missing, h), r);
  }

  /** The blocks are announced one after the other. */
  ghost predicate AnnouncesAll(s: State, s': State, r: ReqId, hs: seq<Hash>)
    decreases |hs|, 0
  {
    if hs == [] then s' == s else AnnouncesLast(s, s', r, hs[..|hs| - 1], hs[|hs| - 1])
  }

  ghost predicate AnnouncesLast(s: State, s': State, r: ReqId, front: seq<Hash>, h: Hash)
    decreases |front|, 1
  {
    exists m :: AnnouncesAll(s, m, r, front) && Announces(m, s', r, h)
  }

  lemma {:induction false} AnnouncesEach(s: State, r: ReqId, hs: seq<Hash>)
    requires Inv(s)
    ensures AnnouncesAll(s, AnnounceStores(s, r, hs), r, hs)
    decreases |hs|
  {
    hide Inv, Sound, AnnounceStore, Announces, Flat;
    if hs != [] {
      var front := hs[..|hs| - 1];
      AnnouncesEach(s, r, front);
      AnnounceStoresKeeps(s, r, front);
      AnnouncesOne(AnnounceStores(s, r, front), Flat(front, StoreTokens), r, hs[|hs| - 1]);
    }
  }

  /** The job as it arrives: nothing started, nothing resolved. */
  predicate Arrives(w: Work, w': Work, isStore: bool, r: ReqId, hs: seq<Hash>) {
    w' == w.(jobs := w.jobs + [Job(isStore, r, hs, 0, 0, 0, false, false, [])], active := w.active + [|w.jobs|])
  }

  /** A store request announces each of its blocks, in order, and becomes an active job. */
  lemma StoreRequestDoes(s: State, r: ReqId, hs: seq<Hash>)
    requires Reached(s) && Enabled(s, StoreRequest(r, hs))
    ensures var s' := Step(s, StoreRequest(r, hs));
      Arrives(s.work, s'.work, true, r, hs) && AnnouncesAll(s, s'.(work := s.work), r, hs)
  {
    hide Reached, Inv, AnnouncesAll, AnnounceStores, Step, Enabled;
    ReachedInv(s);
    StoreRequestIs(s, r, hs);
    AnnouncesEach(s, r, hs);
    AnnounceStoresWork(s, r, hs);
    assert Step(s, StoreRequest(r, hs)).(work := s.work) == AnnounceStores(s, r, hs);
  }

  lemma StoreRequestIs(s: State, r: ReqId, hs: seq<Hash>)
    requires Enabled(s, StoreRequest(r, hs))
    ensures var m := AnnounceStores(s, r, hs);
      Step(s, StoreRequest(r, hs)) == m.(work := Activate(m.work, NewJob(true, r, hs)))
  {
    hide AnnounceStores;
  }

  lemma {:induction false} AnnounceStoresWork(s: State, r: ReqId, hs: seq<Hash>)
    ensures AnnounceStores(s, r, hs).work == s.work
  {
    hide Announced, Decref;
    if hs != [] { AnnounceStoresWork(s, r, hs[..|hs| - 1]); }
  }

  // ---------- Loads ----------

  lemma {:induction false} AllForgotten(d: Demand, hs: seq<Hash>)
    ensures var d' := ForgetAllMissing(d, hs);
      && d' == d.(missing := d'.missing, missingOrder := d'.missingOrder)
      && (forall h :: h in d'.missing <==> h in d.missing && h !in hs)
      && (forall h :: h in d'.missing ==> d'.missing[h] == d.missing[h])
  {
    hide Without;
    if hs != [] {
      AllForgotten(d, hs[..|hs| - 1]);
      assert forall h :: h in hs <==> h in hs[..|hs| - 1] || h == hs[|hs| - 1];
    }
  }

  /** A load that the planner accepts becomes an active job, and whether its files are missing is open again. One that it
      declines is answered so at once and never becomes active. */
  lemma LoadRequestDoes(s: State, r: ReqId, hs: seq<Hash>, declined: bool)
    requires Enabled(s, LoadRequest(r, hs, declined))
    ensures var s' := Step(s, LoadRequest(r, hs, declined));
      if declined then
        s' == s.(work := s.work.(jobs := s.work.jobs + [Job(false, r, hs, 0, 0, 0, false, true, [Declined])]))
      else
        && s' == s.(work := s'.work, demand := s.demand.(missing := s'.demand.missing, missingOrder := s'.demand.missingOrder))
        && Arrives(s.work, s'.work, false, r, hs)
        && (forall h :: h in s'.demand.missing <==> h in s.demand.missing && h !in hs)
        && (forall h :: h in s'.demand.missing ==> s'.demand.missing[h] == s.demand.missing[h])
  {
    hide ForgetAllMissing;
    AllForgotten(s.demand, hs);
  }

  // ---------- Preload demand ----------

  /** Nothing of the block is claimable, under way, queued, parked or known to be missing. */
  ghost predicate NothingOf(s: State, h: Hash) {
    !IsCached(s.slots, h) && PreloadsOf(s.ring, h) == 0 && !InQueue(s, h) && h !in s.demand.blocked && h !in s.demand.missing
  }

  /** Request `r` wants block `h`. Nothing happens if the block is in the cache or the request is on record already.
      Otherwise it goes on record, where the oldest may be dropped for it. With shared preloading the demand is one more,
      and a preload is queued exactly if there is nothing of the block; with private preloading one is queued exactly if
      the block is not known to be missing, and the demand joins the others for it if it is. */
  ghost predicate Demands(s: State, s': State, r: ReqId, h: Hash) {
    var z, d, info := s.slots, s.demand, Info(h, r);
    if InCache(s, h) || (r, h) in z.owned then s' == s
    else
      var owned := Suffix(z.owned + [(r, h)], MAX_PRELOAD_OWNED);
      var queued := d.(pending := d.pending + [info], pendingCount := d.pendingCount[h := Count(d.pendingCount, h) + 1]);
      && s' == s.(slots := s'.slots, demand := s'.demand)
      && s'.slots == z.(owned := owned, refcount := if z.cfg.sharePreload then z.refcount[h := Count(z.refcount, h) + 1] else z.refcount)
      && (if z.cfg.sharePreload then s'.demand == if NothingOf(s, h) then queued else d
          else if h in d.missing then
            s'.demand == d.(missing := d.missing[h := d.missing[h] + [info]], missingOrder := MoveToEnd(d.missingOrder, h))
          else s'.demand == queued)
  }

  lemma NothingIs(s: State, z: Slots, h: Hash)
    requires Reached(s) && z.shared == s.slots.shared && z.sharedCached == s.slots.sharedCached
    ensures NothingOf(s, h) <==> !HasAnySharedState(z, s.demand, h)
  {
    hide Reached, IsCached, Claimable, PreloadsOf, InQueue, Sound, Inv;
    ReachedInv(s);
    InvSound(s);
    ClaimsAre(s, multiset{}, h);
    ClaimableOnlyShared(s.slots, z, h);
    InflightCounts(s, h);
    InQueueIs(s, h);
  }

  lemma DemandsOne(s: State, r: ReqId, h: Hash)
    requires Reached(s)
    ensures Demands(s, IntakeDemand(s, r, h), r, h)
  {
    hide Reached, NothingOf, HasAnySharedState, Suffix, MoveToEnd;
    var owned := Suffix(s.slots.owned + [(r, h)], MAX_PRELOAD_OWNED);
    NothingIs(s, s.slots.(owned := owned, refcount := Raise(s.slots.refcount, h)), h);
  }

  lemma PreloadNow(s: State, r: ReqId, hs: seq<Hash>)
    requires Reached(s)
    ensures Reached(IntakePreload(s, r, hs))
  {
    hide IntakePreload, IsRun, After, EmptyCache, Initial;
    var cfg, cache, es :| EmptyCache(cache) && IsRun(Initial(cfg, cache), es) && s == After(Initial(cfg, cache), es);
    RunAppend(Initial(cfg, cache), es, PreloadRequest(r, hs));
    assert IsRun(Initial(cfg, cache), es + [PreloadRequest(r, hs)]);
  }

  /** A preload request wants each of its blocks, in order: the last one after all others. */
  lemma PreloadRequestDoes(s: State, r: ReqId, hs: seq<Hash>)
    requires Reached(s)
    ensures hs == [] ==> Step(s, PreloadRequest(r, hs)) == s
    ensures hs != [] ==> Demands(Step(s, PreloadRequest(r, hs[..|hs| - 1])), Step(s, PreloadRequest(r, hs)), r, hs[|hs| - 1])
  {
    hide Reached, IntakeDemand, Demands;
    if hs != [] {
      PreloadNow(s, r, hs[..|hs| - 1]);
      DemandsOne(IntakePreload(s, r, hs[..|hs| - 1]), r, hs[|hs| - 1]);
    }
  }
}
