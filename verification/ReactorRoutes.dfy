/** By which route the next file of a load gets its bytes: one condition on the state for each route. */
module ReactorRoutes {
  import opened Outcomes
  import opened OrderedKeys
  import opened ReactorState
  import opened ReactorSlots
  import opened Reactor
  import opened ReactorTokens
  import opened ReactorSlotSafety
  import opened ReactorDemandSafety
  import opened ReactorMoves
  import opened ReactorDemandMoves
  import opened ReactorSafety
  import opened ReactorRuns
  import opened ReactorTheorems
  import opened ReactorGuarantees
  import opened ReactorOutcomes
  import opened ReactorQueues
  import opened ReactorBytes
  import opened ReactorCompletions
  import SC = StagingCache

  // ---------- What the queue of preloads holds ----------

  lemma PicksEntry(h: Hash)
    ensures Picks(TPend(h), Never(), Never(), Never(), Never(), Never())
  {
    hide Picks;
    PicksBy(TPend(h), Never(), Never(), Never(), Never(), Never());
  }

  /** The count of queued preloads of a hash is the number of its entries in the queue, cancelled ones included. */
  lemma EntriesCounted(s: State, h: Hash)
    requires Reached(s)
    ensures Count(s.demand.pendingCount, h) == CountIf(s.demand.pending, InfoOf(h))
    ensures 0 <= Count(s.demand.pendingCancel, h) <= Count(s.demand.pendingCount, h)
  {
    hide Reached, Inv, Total, CountIf, Flat, InfoOf;
    ReachedInv(s);
    DemandTokens(s, h);
    QueueOnly(s, h);
    EntryTokens(h);
    FlatCounts(s.demand.pending, PendTokens, TPend(h), InfoOf(h));
  }

  lemma EntryTokens(h: Hash)
    ensures forall i: Info :: PendTokens(i)[TPend(h)] == One(InfoOf(h)(i))
  {
  }

  lemma QueueOnly(s: State, h: Hash)
    ensures Total(s)[TPend(h)] == Flat(s.demand.pending, PendTokens)[TPend(h)]
  {
    hide Flat, Sum, RingTotal, SlotsTotal, JobTokens, WaitTokens, EndTokens, PendTokens, CountIf, BatchCount, OpsIf, Picks, FileTokens;
    var k := TPend(h);
    PicksEntry(h);
    RingCounts(s.ring, k, Never(), Never(), Never(), Never(), Never());
    NeverOps(s.ring.inflight);
    NeverCounts(s.ring.readyLoad);
    NeverCounts(s.ring.readyPreload);
    NeverCounts(s.ring.copyReady);
    NeverCounts(s.ring.pendingCopies);
    NeverBatched(s.ring.pendingCopies);
    SlotsOnly(s.slots);
    OnlyAvoids(SlotKind, SlotsTotal(s.slots), k);
    forall f: FileRef ensures WaitTokens(f)[k] == 0 { WaitHasNoEntry(f, h); }
    forall j: Job ensures JobTokens(j)[k] == 0 { JobAvoids(j, k); }
    forall e: FileEnd ensures EndTokens(e)[k] == 0 { EndHasNoEntry(e, h); }
    FlatAvoids(s.work.jobs, JobTokens, k);
    FlatAvoids(s.work.log, EndTokens, k);
    FlatAvoids(s.waiters, WaitTokens, k);
  }

  lemma WaitHasNoEntry(f: FileRef, h: Hash) ensures WaitTokens(f)[TPend(h)] == 0 {}

  lemma EndHasNoEntry(e: FileEnd, h: Hash) ensures EndTokens(e)[TPend(h)] == 0 {}

  // ---------- Where the next file can get its bytes ----------

  function Coming(w: Work, j: JobId): FileRef
    requires Unfinished(w, j)
  {
    FileRef(j, w.jobs[j].next, w.jobs[j].hashes[w.jobs[j].next])
  }

  predicate InCache(s: State, h: Hash) { s.Cfg().hasCache && h in s.slots.cache.slots }

  /** A slot with the block's bytes can be claimed: a shared one, or a private copy. */
  ghost predicate Prepared(s: State, h: Hash) {
    if s.Cfg().sharePreload then IsCached(s.slots, h) else exists k :: 0 <= k < |s.slots.preload| && s.slots.preload[k].info.hash == h
  }

  /** A preload of the block is opening, open or reading, and with private preloading it is not already waited for. */
  predicate Awaitable(s: State, h: Hash) {
    if s.Cfg().sharePreload then PreloadsOf(s.ring, h) > 0 else |Waiting(s.waiters, h)| < PreloadsOf(s.ring, h)
  }

  predicate OpenAllowed(s: State) {
    |OpsIf(s.ring.inflight, OpenOp())| + |s.ring.readyLoad| + |s.ring.readyPreload| < s.Cfg().openLookahead
  }

  predicate InQueue(s: State, h: Hash) { exists i :: 0 <= i < |s.demand.pending| && s.demand.pending[i].hash == h }

  datatype Route = FromCache | FromStaged | AfterPreload | Stalled | Promoted | Opened | NotOpened

  ghost function RouteOf(s: State, j: JobId, queued: bool): Route
    requires Unfinished(s.work, j)
  {
    var h := Coming(s.work, j).hash;
    if InCache(s, h) then FromCache
    else if Prepared(s, h) then FromStaged
    else if Awaitable(s, h) then AfterPreload
    else if !OpenAllowed(s) then Stalled
    else if s.Cfg().sharePreload && InQueue(s, h) then Promoted
    else if queued then Opened
    else NotOpened
  }

  // ---------- What each route does ----------

  predicate Begun(w: Work, w': Work, j: JobId)
    requires j < |w.jobs|
  {
    w' == w.(jobs := w.jobs[j := w.jobs[j].(next := w.jobs[j].next + 1, inflight := w.jobs[j].inflight + 1)])
  }

  predicate CopyQueued(g: Ring, g': Ring, c: LoadCopy) { g' == g.(copyReady := g.copyReady + [c]) }

  predicate OpenQueued(g: Ring, g': Ring, op: Op) {
    g' == g.(inflight := g.inflight[g.nextUd := op], nextUd := g.nextUd + 1, openInflight := g.openInflight + 1)
  }

  /** One queued preload of the block will be skipped, if one is queued that will not be anyway. */
  predicate OneSkipped(d: Demand, cancel: map<Hash, int>, h: Hash) {
    cancel == if CountIf(d.pending, InfoOf(h)) > Count(d.pendingCancel, h) then d.pendingCancel[h := Count(d.pendingCancel, h) + 1]
              else d.pendingCancel
  }

  /** What demand is left for the block when the request has got it. */
  function DemandAfter(z: Slots, r: ReqId, h: Hash): int { Count(z.refcount, h) - One((r, h) in z.owned) }

  ghost predicate DemandMet(z: Slots, refcount: map<Hash, int>, r: ReqId, h: Hash) {
    forall k: Hash :: Count(refcount, k) == if k == h then DemandAfter(z, r, h) else Count(z.refcount, k)
  }

  /** One more copy reads slot `x`; it stays claimable while the block is wanted. */
  ghost predicate SharedTaken(z: Slots, z': Slots, x: Slot, r: ReqId, h: Hash) {
    var wanted := DemandAfter(z, r, h) > 0;
    && x in z.sharedCached && x in z.shared && z.shared[x].hash == h
    && z' == z.(owned := Without(z.owned, (r, h)), refcount := z'.refcount,
                shared := z.shared[x := SharedSlot(h, z.shared[x].copies + 1, wanted)],
                sharedCached := if wanted then z.sharedCached else Without(z.sharedCached, x),
                cachedTotal := z.cachedTotal - One(!wanted))
    && DemandMet(z, z'.refcount, r, h)
  }

  ghost predicate CacheRoute(s: State, s': State, j: JobId)
    requires Unfinished(s.work, j)
  {
    var f, c, c' := Coming(s.work, j), s.slots.cache, s'.slots.cache;
    && f.hash in c.slots && Begun(s.work, s'.work, j)
    && CopyQueued(s.ring, s'.ring, LoadCopy(f, c.slots[f.hash].slotIndex, Cached))
    && s' == s.(work := s'.work, ring := s'.ring, slots := s.slots.(cache := c'))
    && c' == c.(policy := SC.Get(c, f.hash).0.policy, slots := c.slots[f.hash := c.slots[f.hash].(copies := c.slots[f.hash].copies + 1)])
  }

  ghost predicate SharedRoute(s: State, s': State, j: JobId)
    requires Unfinished(s.work, j)
  {
    var f := Coming(s.work, j);
    && Begun(s.work, s'.work, j) && s' == s.(work := s'.work, ring := s'.ring, slots := s'.slots)
    && exists x :: CopyQueued(s.ring, s'.ring, LoadCopy(f, x, Shared)) && SharedTaken(s.slots, s'.slots, x, s.work.jobs[j].reqId, f.hash)
  }

  ghost predicate PrivateRoute(s: State, s': State, j: JobId)
    requires Unfinished(s.work, j)
  {
    var f, copies := Coming(s.work, j), Of(s.slots.preload, CopyKey(), Coming(s.work, j).hash);
    && Begun(s.work, s'.work, j) && s' == s.(work := s'.work, ring := s'.ring, slots := s'.slots)
    && copies != [] && CopyQueued(s.ring, s'.ring, LoadCopy(f, copies[0].slot, Owned))
    && s'.slots == s.slots.(preload := s'.slots.preload, cachedTotal := s.slots.cachedTotal - 1)
    && (forall g: Hash :: Of(s'.slots.preload, CopyKey(), g) == if g == f.hash then copies[1..] else Of(s.slots.preload, CopyKey(), g))
  }

  ghost predicate PromotedRoute(s: State, s': State, j: JobId)
    requires Unfinished(s.work, j)
  {
    var f, d, d' := Coming(s.work, j), s.demand, s'.demand;
    && Begun(s.work, s'.work, j) && OpenQueued(s.ring, s'.ring, OpenPreload(Info(f.hash, s.work.jobs[j].reqId)))
    && s' == s.(work := s'.work, ring := s'.ring, demand := d', waiters := s.waiters + [f])
    && OneSkipped(d, d'.pendingCancel, f.hash)
    && d' == d.(pendingCancel := d'.pendingCancel, inflightHashes := d.inflightHashes[f.hash := Count(d.inflightHashes, f.hash) + 1],
                inflightTotal := d.inflightTotal + 1)
  }

  /** The load opens its file itself: with shared preloading its request no longer wants the block, with private
      preloading one of the queued preloads is skipped. */
  ghost predicate OpenRoute(s: State, s': State, j: JobId)
    requires Unfinished(s.work, j)
  {
    var f, r := Coming(s.work, j), s.work.jobs[j].reqId;
    && s' == s.(work := s'.work, ring := s'.ring, slots := s'.slots, demand := s'.demand)
    && (if s.Cfg().sharePreload then
          && s'.demand == s.demand && s'.slots == s.slots.(owned := Without(s.slots.owned, (r, f.hash)), refcount := s'.slots.refcount)
          && DemandMet(s.slots, s'.slots.refcount, r, f.hash)
        else s'.slots == s.slots && s'.demand == s.demand.(pendingCancel := s'.demand.pendingCancel)
             && OneSkipped(s.demand, s'.demand.pendingCancel, f.hash))
  }

  /** The load's next file goes that way. */
  ghost predicate Goes(s: State, s': State, j: JobId, r: Route)
    requires Unfinished(s.work, j)
  {
    var f := Coming(s.work, j);
    match r
    case FromCache => CacheRoute(s, s', j)
    case FromStaged => if s.Cfg().sharePreload then SharedRoute(s, s', j) else PrivateRoute(s, s', j)
    case AfterPreload => Begun(s.work, s'.work, j) && s' == s.(work := s'.work, waiters := s.waiters + [f])
    case Stalled => s' == s
    case Promoted => PromotedRoute(s, s', j)
    case Opened => OpenRoute(s, s', j) && Begun(s.work, s'.work, j) && OpenQueued(s.ring, s'.ring, OpenLoad(f))
    case NotOpened =>
      && OpenRoute(s, s', j) && OneMoreFile(s.work, s'.work, j) && s'.work.log == s.work.log + [FileEnd(f, false)]
      && s'.ring == s.ring.(nextUd := s.ring.nextUd + 1)
  }

  // ---------- The conditions, as the scheduler sees them ----------

  lemma PreparedIs(s: State, h: Hash)
    requires Reached(s)
    ensures s.Cfg().sharePreload ==> (Prepared(s, h) <==> Claimable(s.slots, h).Some?)
    ensures !s.Cfg().sharePreload ==> (Prepared(s, h) <==> HasPrivateCopy(s.slots, h))
    ensures s.Cfg().sharePreload && Claimable(s.slots, h).Some? ==>
      var x := Claimable(s.slots, h).value; x in s.slots.sharedCached && x in s.slots.shared && s.slots.shared[x].hash == h && s.slots.shared[x].cached
  {
    hide Reached, Sound, SlotSound, Outside, Claimable;
    ReachedInv(s);
    SlotNow(s, multiset{});
    ClaimableMeansClaimed(s.slots, s.memory, Outside(s) + multiset{}, h);
  }

  lemma {:induction false} WaitingCounted(ws: seq<FileRef>, h: Hash)
    ensures WaiterCount(ws, h) == |Waiting(ws, h)|
  {
    if ws != [] { WaitingCounted(ws[..|ws| - 1], h); }
  }

  lemma AwaitableIs(s: State, h: Hash)
    requires Reached(s)
    ensures Awaitable(s, h) <==>
      if s.Cfg().sharePreload then HasInflight(s.demand, h)
      else HasInflight(s.demand, h) && WaiterCount(s.waiters, h) < Count(s.demand.inflightHashes, h)
  {
    hide Reached, PreloadsOf, Of, WaiterCount;
    InflightCounts(s, h);
    WaitingCounted(s.waiters, h);
  }

  lemma InQueueIs(s: State, h: Hash)
    requires Reached(s)
    ensures InQueue(s, h) <==> Count(s.demand.pendingCount, h) > 0
  {
    hide Reached, CountIf;
    EntriesCounted(s, h);
    CountIfHas(s.demand.pending, InfoOf(h));
    if i :| 0 <= i < |s.demand.pending| && s.demand.pending[i].hash == h { assert InfoOf(h)(s.demand.pending[i]); }
  }

  lemma PromotesIs(s: State, j: JobId, queued: bool)
    requires Reached(s) && Unfinished(s.work, j)
    ensures Promotes(s, j) <==> RouteOf(s, j, queued) == Promoted
  {
    hide Reached, Claimable, HasInflight, Prepared, Awaitable, InQueue, CanOpen, OpenAllowed, HasPrivateCopy;
    var h := NextFile(s.work, j).hash;
    PreparedIs(s, h);
    AwaitableIs(s, h);
    InQueueIs(s, h);
    AllowedIs(s);
  }

  lemma AllowedIs(s: State)
    requires Reached(s)
    ensures OpenAllowed(s) <==> CanOpen(s)
  {
    hide Reached;
    OpensWithinLookahead(s);
  }

  // ---------- Each route is taken ----------

  lemma BegunIs(w: Work, j: JobId)
    requires Unfinished(w, j)
    ensures Begun(w, StartFile(w, j), j) && NextFile(w, j) == Coming(w, j)
  {
  }

  lemma GoesByCache(s: State, j: JobId, queued: bool)
    requires Reached(s) && Unfinished(s.work, j) && InCache(s, Coming(s.work, j).hash)
    ensures CacheRoute(s, ScheduleLoad(s, j, queued), j)
  {
    hide Reached, StartFile;
    BegunIs(s.work, j);
    hide Begun;
    var h, c := Coming(s.work, j).hash, s.slots.cache;
    GetThenPin(c, h);
  }

  lemma GetThenPin(c: SC.Cache, h: Hash)
    requires h in c.slots
    ensures SC.Pin(SC.Get(c, h).0, h) == c.(policy := SC.Get(c, h).0.policy, slots := c.slots[h := c.slots[h].(copies := c.slots[h].copies + 1)])
  {
  }

  /** What a request's leaving does to the slots when its block is claimable at `x`. */
  lemma LastDemandUnclaims(s: State, r: ReqId, h: Hash)
    requires Reached(s) && s.Cfg().sharePreload && Claimable(s.slots, h).Some?
    ensures var x := Claimable(s.slots, h).value;
      SharedTaken(s.slots, Decref(AddCopies(s.slots, x, 1), r, h), x, r, h)
  {
    hide Reached, Without, Claimable, PreloadsOf, HasWaiter, Decref, Owners;
    var z, x := s.slots, Claimable(s.slots, h).value;
    PreparedIs(s, h);
    OnePreloadPerHash(s, h);
    ReferenceCounts(s);
    DemandNeverUndercounted(s, r, h);
    assert z.shared[x].copies >= 0;
    if (r, h) in z.owned {
      OwnedCounts(s, r, h);
      TakenBy(z, x, r, h);
    } else {
      NotOwned(AddCopies(z, x, 1), r, h);
      assert z.refcount == z.refcount;
    }
  }

  lemma OwnedCounts(s: State, r: ReqId, h: Hash)
    requires Reached(s) && s.Cfg().sharePreload && (r, h) in s.slots.owned
    ensures DemandMet(s.slots, Withdrawn(s.slots.refcount, h), r, h)
  {
    hide Reached, Owners, Decref, Withdrawn;
    DemandNeverUndercounted(s, r, h);
    DecrefWithdraws(s.slots, r, h);
  }

  lemma CopiesLeaveClaimable(z: Slots, x: Slot, h: Hash, owned: seq<(ReqId, Hash)>, refcount: map<Hash, int>)
    requires x in z.shared
    ensures Claimable(AddCopies(z, x, 1).(owned := owned, refcount := refcount), h) == Claimable(z, h)
  {
    CopiesUnseen(z.sharedCached, z.shared, AddCopies(z, x, 1).shared, h, 0);
  }

  lemma {:induction false} CopiesUnseen(cached: seq<Slot>, a: map<Slot, SharedSlot>, b: map<Slot, SharedSlot>, h: Hash, k: nat)
    requires k <= |cached| && a.Keys == b.Keys && forall x :: x in a ==> a[x].hash == b[x].hash
    ensures ClaimableFrom(cached, a, h, k) == ClaimableFrom(cached, b, h, k)
    decreases |cached| - k
  {
    if k < |cached| { CopiesUnseen(cached, a, b, h, k + 1); }
  }

  lemma TakenBy(z: Slots, x: Slot, r: ReqId, h: Hash)
    requires Claimable(z, h) == Some(x) && x in z.sharedCached && x in z.shared && z.shared[x].hash == h && z.shared[x].cached
    requires (r, h) in z.owned && z.shared[x].copies >= 0 && DemandMet(z, Withdrawn(z.refcount, h), r, h)
    ensures SharedTaken(z, Decref(AddCopies(z, x, 1), r, h), x, r, h)
  {
    hide Without, Claimable, DemandMet;
    var z0 := AddCopies(z, x, 1);
    var owned := Without(z.owned, (r, h));
    CopiesLeaveClaimable(z, x, h, owned, z.refcount - {h});
    if Count(z.refcount, h) > 1 {
      assert Decref(z0, r, h) == z0.(owned := owned, refcount := Withdrawn(z.refcount, h));
    } else {
      var z2 := z0.(owned := owned, refcount := z.refcount - {h});
      assert Decref(z0, r, h) == MaybeReleaseShared(Uncache(z2, x), x);
      assert z0.shared[x := z0.shared[x].(cached := false)] == z.shared[x := SharedSlot(h, z.shared[x].copies + 1, false)];
    }
  }

  lemma GoesByShared(s: State, j: JobId, queued: bool)
    requires Reached(s) && Unfinished(s.work, j) && s.Cfg().sharePreload
    requires !InCache(s, Coming(s.work, j).hash) && Prepared(s, Coming(s.work, j).hash)
    ensures SharedRoute(s, ScheduleLoad(s, j, queued), j)
  {
    hide Reached, StartFile, Claimable, AddCopies, Decref, SharedTaken, Prepared;
    BegunIs(s.work, j);
    hide Begun;
    var f := Coming(s.work, j);
    PreparedIs(s, f.hash);
    LastDemandUnclaims(s, s.work.jobs[j].reqId, f.hash);
    var x := Claimable(s.slots, f.hash).value;
    assert CopyQueued(s.ring, ScheduleLoad(s, j, queued).ring, LoadCopy(f, x, Shared));
  }

  lemma GoesByPrivate(s: State, j: JobId, queued: bool)
    requires Reached(s) && Unfinished(s.work, j) && !s.Cfg().sharePreload
    requires !InCache(s, Coming(s.work, j).hash) && Prepared(s, Coming(s.work, j).hash)
    ensures PrivateRoute(s, ScheduleLoad(s, j, queued), j)
  {
    hide Reached, StartFile, HasPrivateCopy, PreloadPop, Of, Prepared;
    BegunIs(s.work, j);
    hide Begun;
    var f := Coming(s.work, j);
    PreparedIs(s, f.hash);
    ClaimsOldest(s.slots, f.hash);
    PoppedCopy(s.slots, f.hash);
  }

  lemma PoppedCopy(z: Slots, h: Hash)
    requires HasPrivateCopy(z, h)
    ensures var z' := PreloadPop(z, h).0; z' == z.(preload := z'.preload, cachedTotal := z.cachedTotal - 1)
  {
  }

  lemma SkippedIs(s: State, h: Hash)
    requires Reached(s)
    ensures var d' := CancelOnePending(s.demand, h);
      d' == s.demand.(pendingCancel := d'.pendingCancel) && OneSkipped(s.demand, d'.pendingCancel, h)
  {
    hide Reached, CountIf;
    EntriesCounted(s, h);
  }

  lemma GoesByPromotion(s: State, j: JobId)
    requires Reached(s) && Unfinished(s.work, j) && RouteOf(s, j, true) == Promoted
    ensures PromotedRoute(s, ScheduleLoad(s, j, true), j)
  {
    hide Reached, StartFile, Claimable, HasInflight, CanOpen, CancelOnePending, Prepared, Awaitable, InQueue, OpenAllowed, OneSkipped;
    BegunIs(s.work, j);
    PromotesIs(s, j, true);
    hide Begun, RouteOf;
    SkippedIs(s, Coming(s.work, j).hash);
  }

  lemma GoesByOpen(s: State, j: JobId, queued: bool)
    requires Reached(s) && Schedulable(s.work, j) && RouteOf(s, j, queued) in {Opened, NotOpened}
    ensures var s' := ScheduleLoad(s, j, queued);
      if queued then OpenRoute(s, s', j) && Begun(s.work, s'.work, j) && OpenQueued(s.ring, s'.ring, OpenLoad(Coming(s.work, j)))
      else OpenRoute(s, s', j) && OneMoreFile(s.work, s'.work, j) && s'.work.log == s.work.log + [FileEnd(Coming(s.work, j), false)]
           && s'.ring == s.ring.(nextUd := s.ring.nextUd + 1)
  {
    hide Reached, Claimable, HasInflight, CanOpen, CancelOnePending, Decref, Prepared, Awaitable, InQueue, OpenAllowed, OneSkipped,
      HasPrivateCopy, WaiterCount, FileTerminal, StartFile, OneMoreFile, Without, DemandMet;
    var f, r := Coming(s.work, j), s.work.jobs[j].reqId;
    BegunIs(s.work, j);
    OpensAre(s, j, queued);
    hide Begun, RouteOf;
    StartedOne(s.work, j);
    StartedLog(s.work, j);
    LoggedFile(StartFile(s.work, j), f, false);
    SkippedIs(s, f.hash);
    if s.Cfg().sharePreload { NothingToUnclaim(s, r, f.hash); }
  }

  lemma StartedLog(w: Work, j: JobId)
    requires Unfinished(w, j)
    ensures StartFile(w, j).log == w.log && |StartFile(w, j).jobs| == |w.jobs|
  {
  }

  /** What is scheduled when the file has to be opened. */
  lemma OpensAre(s: State, j: JobId, queued: bool)
    requires Reached(s) && Unfinished(s.work, j) && RouteOf(s, j, queued) in {Opened, NotOpened}
    ensures var f, s1 := Coming(s.work, j), OpenForLoad(s, j, queued);
      ScheduleLoad(s, j, queued) ==
        if s.Cfg().sharePreload then s1.(slots := Decref(s1.slots, s.work.jobs[j].reqId, f.hash))
        else s1.(demand := CancelOnePending(s1.demand, f.hash))
    ensures s.Cfg().sharePreload ==> Claimable(s.slots, Coming(s.work, j).hash).None?
  {
    hide Reached, Claimable, HasInflight, CanOpen, CancelOnePending, Decref, Prepared, Awaitable, InQueue, OpenAllowed, HasPrivateCopy,
      WaiterCount, OpenForLoad;
    var h := Coming(s.work, j).hash;
    PreparedIs(s, h);
    AwaitableIs(s, h);
    InQueueIs(s, h);
    AllowedIs(s);
  }

  lemma NothingToUnclaim(s: State, r: ReqId, h: Hash)
    requires Reached(s) && s.Cfg().sharePreload && Claimable(s.slots, h).None?
    ensures var z' := Decref(s.slots, r, h);
      z' == s.slots.(owned := Without(s.slots.owned, (r, h)), refcount := z'.refcount) && DemandMet(s.slots, z'.refcount, r, h)
  {
    hide Reached, Without, Decref, Owners, Sound, Claims, Claimable, SlotSound, Outside;
    ReachedInv(s);
    InvSound(s);
    SlotNow(s, multiset{});
    ClaimableMeansClaimed(s.slots, s.memory, Outside(s) + multiset{}, h);
    DecrefUnclaimed(s, multiset{}, r, h);
    DemandNeverUndercounted(s, r, h);
    if (r, h) in s.slots.owned { DecrefWithdraws(s.slots, r, h); } else { NotOwned(s.slots, r, h); }
  }

  /** The next file of a load goes by the route that the state determines. */
  lemma TakesRoute(s: State, j: JobId, queued: bool)
    requires Reached(s) && Enabled(s, LoadNext(j, queued))
    ensures Goes(s, Step(s, LoadNext(j, queued)), j, RouteOf(s, j, queued))
  {
    hide Reached, Promotes, ScheduleLoad, CacheRoute, SharedRoute, PrivateRoute, PromotedRoute, OpenRoute, Prepared, Awaitable, InQueue, OpenAllowed,
      Begun, OneMoreFile, OpenQueued;
    var h := Coming(s.work, j).hash;
    match RouteOf(s, j, queued)
    case FromCache => GoesByCache(s, j, queued);
    case FromStaged => if s.Cfg().sharePreload { GoesByShared(s, j, queued); } else { GoesByPrivate(s, j, queued); }
    case AfterPreload => GoesInTurn(s, j, queued);
    case Stalled => GoesNowhere(s, j, queued);
    case Promoted =>
      PromotesIs(s, j, queued);
      GoesByPromotion(s, j);
    case Opened => GoesByOpen(s, j, queued);
    case NotOpened => GoesByOpen(s, j, queued);
  }

  lemma GoesInTurn(s: State, j: JobId, queued: bool)
    requires Reached(s) && Unfinished(s.work, j) && RouteOf(s, j, queued) == AfterPreload
    ensures var s' := ScheduleLoad(s, j, queued);
      Begun(s.work, s'.work, j) && s' == s.(work := s'.work, waiters := s.waiters + [Coming(s.work, j)])
  {
    hide Reached, Claimable, HasInflight, Prepared, Awaitable, InQueue, OpenAllowed, HasPrivateCopy, WaiterCount, StartFile;
    BegunIs(s.work, j);
    hide Begun;
    PreparedIs(s, Coming(s.work, j).hash);
    AwaitableIs(s, Coming(s.work, j).hash);
  }

  lemma GoesNowhere(s: State, j: JobId, queued: bool)
    requires Reached(s) && Unfinished(s.work, j) && RouteOf(s, j, queued) == Stalled
    ensures ScheduleLoad(s, j, queued) == s
  {
    hide Reached, Claimable, HasInflight, Prepared, Awaitable, InQueue, OpenAllowed, HasPrivateCopy, WaiterCount, CanOpen;
    PreparedIs(s, Coming(s.work, j).hash);
    AwaitableIs(s, Coming(s.work, j).hash);
    AllowedIs(s);
  }

  // ---------- No other route ----------

  /** What a step shows of the route taken: whether anything was started, the copies queued and whether from the cache,
      the files that wait, the numbers used up and the opens. */
  datatype Signs = Signs(starts: bool, copies: int, cached: bool, waits: int, numbers: int, opens: int)

  function Seen(s: State, s': State): Signs {
    var n, n' := |s.ring.copyReady|, |s'.ring.copyReady|;
    Signs(s'.work != s.work, n' - n, n' > n && s'.ring.copyReady[n' - 1].source == Cached, |s'.waiters| - |s.waiters|,
          s'.ring.nextUd - s.ring.nextUd, s'.ring.openInflight - s.ring.openInflight)
  }

  function SignsOf(r: Route): Signs {
    match r
    case FromCache => Signs(true, 1, true, 0, 0, 0)
    case FromStaged => Signs(true, 1, false, 0, 0, 0)
    case AfterPreload => Signs(true, 0, false, 1, 0, 0)
    case Stalled => Signs(false, 0, false, 0, 0, 0)
    case Promoted => Signs(true, 0, false, 1, 1, 1)
    case Opened => Signs(true, 0, false, 0, 1, 1)
    case NotOpened => Signs(true, 0, false, 0, 1, 0)
  }

  lemma RouteShows(s: State, s': State, j: JobId, r: Route)
    requires Unfinished(s.work, j) && Goes(s, s', j, r)
    ensures Seen(s, s') == SignsOf(r)
  {
    hide SharedTaken, DemandMet, OneSkipped, Of, SC.Get;
    if r == FromStaged && s.Cfg().sharePreload {
      var x :| CopyQueued(s.ring, s'.ring, LoadCopy(Coming(s.work, j), x, Shared));
    }
  }

  /** Each route is taken exactly under its own condition. The next file of a load is copied out of the cache if and only
      if its block is there; else out of a slot that holds the block if and only if one can be claimed; else it waits for a
      preload if and only if there is one that it may wait for; else nothing happens if and only if no more files may be
      opened; else a preload is opened for it if and only if preloads are shared and one is queued; and else its own file
      is opened, and fails if and only if that is refused. */
  lemma RouteIff(s: State, j: JobId, queued: bool, r: Route)
    requires Reached(s) && Enabled(s, LoadNext(j, queued))
    ensures Goes(s, Step(s, LoadNext(j, queued)), j, r) <==> r == RouteOf(s, j, queued)
  {
    hide Reached, Enabled, Step, Goes, RouteOf, Seen;
    NextThere(s, j, queued);
    TakesRoute(s, j, queued);
    var s' := Step(s, LoadNext(j, queued));
    RouteShows(s, s', j, RouteOf(s, j, queued));
    if Goes(s, s', j, r) { RouteShows(s, s', j, r); }
  }

  lemma NextThere(s: State, j: JobId, queued: bool)
    requires Enabled(s, LoadNext(j, queued))
    ensures Unfinished(s.work, j)
  {
  }
}
