/** When open files are read, when preloads give way, and which queued preloads are opened. */
module ReactorReads {
  import opened Outcomes
  import opened OrderedKeys
  import opened ReactorState
  import opened ReactorSlots
  import opened Reactor
  import opened ReactorTokens
  import opened ReactorTheorems
  import opened ReactorGuarantees
  import opened ReactorOutcomes
  import opened ReactorQueues
  import opened ReactorBytes
  import opened ReactorCompletions
  import opened ReactorRetention
  import opened ReactorRoutes
  import SC = StagingCache

  // ---------- Open files of loads ----------

  predicate DataAllowed(s: State) { |OpsIf(s.ring.inflight, DataOp())| + CountIf(s.ring.pendingCopies, IsStoreCopy()) < s.Cfg().iodepth }

  lemma DataAllowedIs(s: State)
    requires Reached(s)
    ensures DataAllowed(s) <==> HasDataBudget(s)
  {
    hide Reached, OpsIf, CountIf, DataOp, IsStoreCopy;
    BudgetsHold(s);
  }

  /** The read has been queued: it has taken the next number, and slot `x` holds nobody's bytes meanwhile. */
  predicate ReadQueued(g: Ring, g': Ring, op: Op) {
    g' == g.(inflight := g.inflight[g.nextUd := op], nextUd := g.nextUd + 1, dataInflight := g.dataInflight + 1)
  }

  /** The read was refused, and the file is being closed if that could be queued. */
  predicate ReadRefused(g: Ring, g': Ring, closed: bool) {
    g' == g.(inflight := if closed then g.inflight[g.nextUd + 1 := Close] else g.inflight, nextUd := g.nextUd + 2)
  }

  lemma LiveReady(s: State)
    requires Reached(s) && s.ring.readyLoad != []
    ensures s.ring.readyLoad[0].job < |s.work.jobs|
  {
    hide Reached, CountIf, BatchCount, OpsIf;
    var f := s.ring.readyLoad[0];
    assert IsFile(f)(s.ring.readyLoad[0]);
    CountIfHas(s.ring.readyLoad, IsFile(f));
    PlacedIsLive(s, f);
  }

  ghost predicate LoadRead(s: State, s': State, z: Slots, x: Slot, queued: bool, closed: bool)
    requires s.ring.readyLoad != []
  {
    var f, g := s.ring.readyLoad[0], s.ring.(readyLoad := s.ring.readyLoad[1..]);
    if queued then ReadQueued(g, s'.ring, ReadLoad(f, x)) && s' == s.(slots := z, ring := s'.ring, memory := s.memory - {x})
    else
      && ReadRefused(g, s'.ring, closed) && s'.work.log == s.work.log + [FileEnd(f, false)]
      && s' == s.(slots := z.(free := PutBack(z, x)), ring := s'.ring, work := s'.work)
  }

  /** The file that was opened first is read into a slot, if one can be had; if the read is refused, the slot is free again
      and the file has failed. */
  lemma LoadFdDoes(s: State, queued: bool, closed: bool)
    requires Reached(s) && Enabled(s, ReadLoadFd(queued, closed))
    ensures DataAllowed(s)
    ensures var s' := Step(s, ReadLoadFd(queued, closed));
      exists z, x :: Foreground(s.slots, z, x) && (x.None? ==> s' == s) && (x.Some? ==> LoadRead(s, s', z, x.value, queued, closed))
  {
    hide Reached, ReserveForeground, Foreground, FileTerminal, InRange, DataAllowed;
    DataAllowedIs(s);
    InRangeNow(s);
    ForegroundOrder(s.slots);
    var (z, x) := ReserveForeground(s.slots);
    NoSlotNothing(s.slots, z);
    LiveReady(s);
    LoggedFile(s.work, s.ring.readyLoad[0], false);
  }

  lemma NoSlotNothing(z: Slots, z': Slots)
    ensures Foreground(z, z', None) || Spare(z, z', None) ==> z' == z
  {
    hide TakesCached, TakesShared;
  }

  // ---------- Open files of preloads ----------

  /** A load uses, or is about to use, the disk: one of its files is being opened, open, or being read, or the next file of
      an active load is neither in the cache nor claimable nor under way. */
  ghost predicate LoadPressure(s: State) {
    || s.ring.readyLoad != []
    || (exists ud | ud in s.ring.inflight.Keys :: LoadOp(s, s.ring.inflight[ud]))
    || (exists j | j in s.work.active :: NeedsDisk(s, j))
  }

  predicate LoadOp(s: State, op: Op) {
    (op.OpenLoad? || op.ReadLoad?) && op.file.job < |s.work.jobs| && !s.work.jobs[op.file.job].isStore
  }

  ghost predicate NeedsDisk(s: State, j: JobId) {
    && Unfinished(s.work, j) && !s.work.jobs[j].isStore && !s.work.jobs[j].failed && !s.work.jobs[j].futureSet
    && var h := Coming(s.work, j).hash; !InCache(s, h) && !Prepared(s, h) && PreloadsOf(s.ring, h) == 0
  }

  lemma NeedsDiskIs(s: State, j: JobId)
    requires Reached(s)
    ensures NeedsDisk(s, j) <==> WantsDisk(s, j)
  {
    hide Reached, Claimable, HasPrivateCopy, PreloadsOf, Prepared;
    if Unfinished(s.work, j) {
      PreparedIs(s, Coming(s.work, j).hash);
      InflightCounts(s, Coming(s.work, j).hash);
    }
  }

  lemma LoadOpIs(s: State)
    ensures forall op: Op :: LoadOp(s, op) <==> ForegroundOp(s.work, op)
  {
  }

  lemma PressureIff(s: State)
    requires Reached(s)
    ensures LoadPressure(s) <==> RealLoadPressure(s)
  {
    hide Reached, NeedsDisk, WantsDisk, LoadOp, ForegroundOp;
    forall j: JobId ensures NeedsDisk(s, j) <==> WantsDisk(s, j) { NeedsDiskIs(s, j); }
    LoadOpIs(s);
    assert (exists ud | ud in s.ring.inflight.Keys :: LoadOp(s, s.ring.inflight[ud])) <==>
           (exists ud | ud in s.ring.inflight.Keys :: ForegroundOp(s.work, s.ring.inflight[ud]));
  }

  /** The first open preload is read into slot `x`; if the read is refused, the slot is free again and the files that fail
      with the preload have failed. */
  ghost predicate PreloadRead(s: State, s': State, z: Slots, x: Slot, queued: bool, closed: bool)
    requires s.ring.readyPreload != []
  {
    var info, g := s.ring.readyPreload[0], s.ring.(readyPreload := s.ring.readyPreload[1..]);
    var h, waiting := info.hash, Waiting(s.waiters, info.hash);
    var failing := Failing(s.Cfg().sharePreload, waiting);
    if queued then ReadQueued(g, s'.ring, ReadPreload(info, x)) && s' == s.(slots := z, ring := s'.ring, memory := s.memory - {x})
    else
      && ReadRefused(g, s'.ring, closed)
      && s' == s.(slots := z.(free := PutBack(z, x)), ring := s'.ring, work := s'.work, waiters := s'.waiters, demand := s'.demand)
      && NotUnderWay(s.demand, s'.demand, h) && s'.work.log == s.work.log + Failures(failing)
      && StillWaiting(s'.waiters, h) == StillWaiting(s.waiters, h) && Waiting(s'.waiters, h) == waiting[|failing|..]
  }

  /** One preload of the hash is no longer under way. */
  predicate NotUnderWay(d: Demand, d': Demand, h: Hash) {
    && d' == d.(inflightHashes := d'.inflightHashes, inflightTotal := d.inflightTotal - 1)
    && Count(d'.inflightHashes, h) == Count(d.inflightHashes, h) - 1
  }

  /** The first open preload gives way: it is no longer under way, its file is being closed if that could be queued, and its
      demand is queued again, last. */
  predicate GivesWay(s: State, s': State, closed: bool)
    requires s.ring.readyPreload != []
  {
    var info, d, d' := s.ring.readyPreload[0], s.demand, s'.demand;
    && s' == s.(ring := s'.ring, demand := d')
    && s'.ring == s.ring.(readyPreload := s.ring.readyPreload[1..], nextUd := s.ring.nextUd + 1,
                          inflight := if closed then s.ring.inflight[s.ring.nextUd := Close] else s.ring.inflight)
    && d' == d.(pending := d.pending + [info], pendingCount := d.pendingCount[info.hash := Count(d.pendingCount, info.hash) + 1],
                inflightHashes := d'.inflightHashes, inflightTotal := d.inflightTotal - 1)
    && Count(d'.inflightHashes, info.hash) == Count(d.inflightHashes, info.hash) - 1
  }

  lemma OneUnderWay(s: State)
    requires Reached(s) && s.ring.readyPreload != []
    ensures NotUnderWay(s.demand, InflightRemove(s.demand, s.ring.readyPreload[0].hash), s.ring.readyPreload[0].hash)
  {
    hide Reached, OpsIf, CountIf;
    var h := s.ring.readyPreload[0].hash;
    InflightCounts(s, h);
    assert InfoOf(h)(s.ring.readyPreload[0]);
    CountIfHas(s.ring.readyPreload, InfoOf(h));
  }

  /** What a failed preload does to those that wait for it. */
  ghost predicate WaitersFail(s: State, s': State, h: Hash) {
    var waiting := Waiting(s.waiters, h);
    var failing := Failing(s.Cfg().sharePreload, waiting);
    && s' == s.(work := s'.work, waiters := s'.waiters) && s'.work.log == s.work.log + Failures(failing)
    && StillWaiting(s'.waiters, h) == StillWaiting(s.waiters, h) && Waiting(s'.waiters, h) == waiting[|failing|..]
  }

  lemma FailingIs(s: State, h: Hash)
    requires forall f :: f in s.waiters ==> f.job < |s.work.jobs|
    ensures WaitersFail(s, if s.Cfg().sharePreload then FailWaiters(s, h) else FailOneWaiter(s, h), h)
  {
    hide FailWaiters, FailOneWaiter, Of, StillWaiting, Failures;
    AllFail(s, h);
    FirstFails(s, h);
    NoFailures();
    NoneStillWaiting(s.waiters, h);
    var waiting := Waiting(s.waiters, h);
    if waiting != [] {
      FailuresNext([waiting[0]]);
      assert [waiting[0]][1..] == [] && [FileEnd(waiting[0], false)] + [] == [FileEnd(waiting[0], false)];
    }
    assert s.work.log + [] == s.work.log && waiting[|waiting|..] == [] && waiting[0..] == waiting;
    assert waiting != [] ==> waiting[..1] == [waiting[0]];
  }

  lemma ReadsPreload(s: State, z: Slots, x: Slot, queued: bool, closed: bool)
    requires Reached(s) && s.ring.readyPreload != [] && z.cfg == s.slots.cfg
    ensures PreloadRead(s, ReadPreloadFd(s, (z, Some(x)), queued, closed), z, x, queued, closed)
  {
    hide Reached, FailWaiters, FailOneWaiter, InflightRemove, Of, StillWaiting, Failures, NotUnderWay, Failing;
    var info, g := s.ring.readyPreload[0], s.ring.(readyPreload := s.ring.readyPreload[1..]);
    if !queued {
      OneUnderWay(s);
      AllWaitersLive(s);
      var s1 := s.(ring := AsyncClose(Refused(g), closed), slots := Release(z, x), demand := InflightRemove(s.demand, info.hash));
      FailingIs(s1, info.hash);
    }
  }

  lemma TakenCfg(z: Slots, z': Slots, x: Option<Slot>)
    requires Foreground(z, z', x) || Spare(z, z', x)
    ensures z'.cfg == z.cfg
  {
  }

  lemma SlotFor(s: State, waited: bool) returns (z: Slots, x: Option<Slot>)
    requires Reached(s)
    ensures (z, x) == if waited then ReserveForeground(s.slots) else ReservePreload(s.slots)
    ensures if waited then Foreground(s.slots, z, x) else Spare(s.slots, z, x)
    ensures z.cfg == s.slots.cfg && (x.None? ==> z == s.slots)
  {
    hide Reached, ReserveForeground, ReservePreload, Foreground, Spare, InRange;
    InRangeNow(s);
    ForegroundOrder(s.slots);
    SpareOrder(s.slots);
    var r := if waited then ReserveForeground(s.slots) else ReservePreload(s.slots);
    z, x := r.0, r.1;
    TakenCfg(s.slots, z, x);
    NoSlotNothing(s.slots, z);
  }

  /** Whether somebody waits for the hash. */
  lemma WaitedIs(s: State, h: Hash)
    ensures HasWaiter(s, h) <==> Waiting(s.waiters, h) != []
  {
    hide Of, StillWaiting;
    Popped(s, h);
    PopWaiterIs(s, h);
  }

  /** The first open preload. If a file waits for it, it is read, into a slot that may be taken from other preloads, as soon
      as the device has room; otherwise it gives way if and only if a load wants the disk, and else is read into a spare
      slot as soon as the device has room. */
  lemma PreloadFdDoes(s: State, queued: bool, closed: bool)
    requires Reached(s) && Enabled(s, PreloadFd(queued, closed))
    ensures var s', waited := Step(s, PreloadFd(queued, closed)), Waiting(s.waiters, s.ring.readyPreload[0].hash) != [];
      if !waited && LoadPressure(s) then GivesWay(s, s', closed)
      else if !DataAllowed(s) then s' == s
      else exists z, x :: (if waited then Foreground(s.slots, z, x) else Spare(s.slots, z, x))
             && (x.None? ==> s' == s) && (x.Some? ==> PreloadRead(s, s', z, x.value, queued, closed))
  {
    hide Reached, ReserveForeground, ReservePreload, Foreground, Spare, PreloadRead, ReadPreloadFd, LoadPressure, RealLoadPressure, DataAllowed,
      HasDataBudget, Of, GivesWay, HasWaiter;
    var h := s.ring.readyPreload[0].hash;
    WaitedIs(s, h);
    PressureIff(s);
    DataAllowedIs(s);
    var waited := HasWaiter(s, h);
    if !waited && RealLoadPressure(s) {
      YieldGivesWay(s, closed);
    } else if HasDataBudget(s) {
      var z, x := SlotFor(s, waited);
      if x.Some? { ReadsPreload(s, z, x.value, queued, closed); } else { NothingRead(s, z, queued, closed); }
    }
  }

  lemma NothingRead(s: State, z: Slots, queued: bool, closed: bool)
    requires s.ring.readyPreload != [] && z == s.slots
    ensures ReadPreloadFd(s, (z, None), queued, closed) == s
  {
  }

  lemma YieldGivesWay(s: State, closed: bool)
    requires Reached(s) && s.ring.readyPreload != []
    ensures GivesWay(s, YieldOpenFd(s, closed), closed)
  {
    hide Reached, InflightRemove;
    OneUnderWay(s);
  }

  // ---------- Queued preloads ----------

  /** The oldest queued preload leaves the queue. */
  predicate LeavesQueue(d: Demand, d': Demand)
    requires d.pending != []
  {
    var h := d.pending[0].hash;
    d' == d.(pending := d.pending[1..], pendingCount := Lower(d.pendingCount, h))
  }

  /** A preload that was cancelled leaves the queue, and its cancellation with it. */
  lemma CancelledDoes(s: State)
    requires Enabled(s, CancelledPending)
    ensures var d, d' := s.demand, Step(s, CancelledPending).demand;
      && Step(s, CancelledPending) == s.(demand := d')
      && LeavesQueue(d.(pendingCancel := Lower(d.pendingCancel, d.pending[0].hash)), d')
  {
  }

  /** A queued preload may be handled if and only if there is one, another file may be opened, and preloads, staged or under
      way, leave the reserved slots alone. */
  lemma MaySpeculateIff(s: State)
    requires Reached(s)
    ensures MaySpeculate(s) <==>
      && s.demand.pending != [] && OpenAllowed(s)
      && s.slots.cachedTotal + |OpsIf(s.ring.inflight, AnyPreloadOp())| + |s.ring.readyPreload| < s.Cfg().MaxPreloadSlots()
  {
    hide Reached, CanOpen, OpenAllowed, OpsIf;
    AllowedIs(s);
    InflightCounts(s, 0);
  }

  /** A queued preload is handled only while no load wants the disk, another file may be opened and preloads leave a device's
      worth of slots to loads. A cancelled one is dropped; one whose block is being stored waits for the store; any other is
      opened, and is lost if that is refused. */
  lemma SpeculativeOpenDoes(s: State, queued: bool)
    requires Reached(s) && Enabled(s, SpeculativeOpen(queued))
    ensures !LoadPressure(s) && OpenAllowed(s)
    ensures s.slots.cachedTotal + |OpsIf(s.ring.inflight, AnyPreloadOp())| + |s.ring.readyPreload| < s.Cfg().MaxPreloadSlots()
    ensures var info, d, s' := s.demand.pending[0], s.demand, Step(s, SpeculativeOpen(queued));
      var h, d' := info.hash, s'.demand;
      if Count(d.pendingCancel, h) > 0 then
        s' == s.(demand := d') && LeavesQueue(d.(pendingCancel := Lower(d.pendingCancel, h)), d')
      else if h in d.storeInflight then
        s' == s.(demand := d') && LeavesQueue(d.(blocked := d.blocked[h := Marks(d.blocked, h) + [info]]), d')
      else if queued then
        && s' == s.(demand := d', ring := s'.ring) && OpenQueued(s.ring, s'.ring, OpenPreload(info))
        && LeavesQueue(d.(inflightHashes := d.inflightHashes[h := Count(d.inflightHashes, h) + 1], inflightTotal := d.inflightTotal + 1), d')
      else s' == s.(demand := d', ring := s.ring.(nextUd := s.ring.nextUd + 1)) && LeavesQueue(d, d')
  {
    hide Reached, LoadPressure, RealLoadPressure, CanOpen, OpenAllowed, OpsIf, Lower;
    PressureIff(s);
    AllowedIs(s);
    InflightCounts(s, s.demand.pending[0].hash);
  }
}
