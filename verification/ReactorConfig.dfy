/** No step changes how the reactor is configured. */
module ReactorConfig {
  import opened Outcomes
  import opened OrderedKeys
  import opened ReactorState
  import opened ReactorSlots
  import opened Reactor
  import SC = StagingCache

  // ---------- Slots ----------

  lemma ReserveCfg(z: Slots)
    ensures ReserveForeground(z).0.cfg == z.cfg && ReservePreload(z).0.cfg == z.cfg
  {
    hide SC.EvictOne, ForgetDemand, Uncache;
    EvictCfg(z);
    EvictCfg(EvictCacheSlot(z).0);
  }

  lemma EvictCfg(z: Slots)
    ensures EvictCacheSlot(z).0.cfg == z.cfg && EvictPreload(z).0.cfg == z.cfg
  {
    hide SC.EvictOne, PurgeOwned;
  }

  lemma ReleaseCfg(z: Slots, h: Hash, x: Slot)
    ensures Release(z, x).cfg == z.cfg && ReleaseOrCache(z, h, x).cfg == z.cfg && MaybeReleaseShared(z, x).cfg == z.cfg
  {
    hide SC.Put;
  }

  lemma DecrefCfgKept(z: Slots, r: ReqId, h: Hash)
    ensures Decref(z, r, h).cfg == z.cfg && ForgetDemand(z, h).cfg == z.cfg
  {
    hide ReleaseOrCache, Claimable, PurgeOwned, MaybeReleaseShared;
    var z2 := z.(owned := Without(z.owned, (r, h)), refcount := z.refcount - {h});
    var x := Claimable(z2, h);
    if x.Some? { ReleaseCfg(Uncache(z2, x.value), h, x.value); }
  }

  lemma KeepCfg(z: Slots, h: Hash, x: Slot)
    ensures KeepOrRelease(z, h, x).cfg == z.cfg && AddCopies(z, x, 1).cfg == z.cfg
  {
    hide MaybeReleaseShared, Claimable, Replace;
    ReleaseCfg(z, h, x);
  }

  lemma SettleCfg(z: Slots, c: LoadCopy)
    ensures SettleLoadSlot(z, c).cfg == z.cfg
  {
    hide ReleaseOrCache, MaybeReleaseShared, SC.Unpin;
    ReleaseCfg(z, c.file.hash, c.slot);
    ReleaseCfg(AddCopies(z, c.slot, -1), c.file.hash, c.slot);
  }

  // ---------- Repeated operations ----------

  lemma {:induction false} FailWaitersCfg(s: State, h: Hash)
    ensures FailWaiters(s, h).slots == s.slots && FailOneWaiter(s, h).slots == s.slots
    decreases |s.waiters|
  {
    hide FailWaiters, FailOneWaiter, FileTerminal, PopWaiter;
    FailAllIs(s, h);
    FailOneIs(s, h);
    var (s', f) := PopWaiter(s, h);
    if f.Some? { FailWaitersCfg(s.(waiters := s'.waiters, work := FileTerminal(s.work, f.value, false)), h); }
  }

  lemma {:induction false} ServeCfg(s: State, h: Hash, x: Slot)
    ensures ServeWaiters(s, h, x).slots.cfg == s.slots.cfg
    decreases |s.waiters|
  {
    hide ServeWaiters, Served, Decref, AddCopies, PopWaiter, HasWaiter;
    ServeIs(s, h, x);
    ServedIs(s, h, x);
    if HasWaiter(s, h) {
      KeepCfg(s.slots, h, x);
      DecrefCfgKept(AddCopies(s.slots, x, 1), RequestOf(s.work, PopWaiter(s, h).1.value), h);
      ServeCfg(Served(s, h, x), h, x);
    }
  }

  lemma {:induction false} SettleAllCfg(s: State, cs: seq<LoadCopy>, ok: bool)
    ensures SettleAll(s, cs, ok).slots.cfg == s.slots.cfg
    decreases |cs|
  {
    hide SettleLoadSlot, FileTerminal;
    if cs != [] {
      SettleAllCfg(s, cs[..|cs| - 1], ok);
      SettleCfg(SettleAll(s, cs[..|cs| - 1], ok).slots, cs[|cs| - 1]);
    }
  }

  lemma {:induction false} IntakePreloadCfg(s: State, r: ReqId, hs: seq<Hash>)
    ensures IntakePreload(s, r, hs).slots.cfg == s.slots.cfg
    decreases |hs|
  {
    hide HasAnySharedState, PendingPush, AddMissing, Suffix;
    if hs != [] { IntakePreloadCfg(s, r, hs[..|hs| - 1]); }
  }

  lemma {:induction false} AnnounceCfg(s: State, r: ReqId, hs: seq<Hash>)
    ensures AnnounceStores(s, r, hs).slots.cfg == s.slots.cfg
    decreases |hs|
  {
    hide Decref, Announced;
    if hs != [] {
      AnnounceCfg(s, r, hs[..|hs| - 1]);
      DecrefCfgKept(AnnounceStores(s, r, hs[..|hs| - 1]).slots, r, hs[|hs| - 1]);
    }
  }

  lemma ReleaseStoreCfg(s: State, h: Hash, ok: bool)
    ensures ReleaseStoreInflight(s, h, ok).slots.cfg == s.slots.cfg
  {
    hide PendingPush, PendingPushAll, ForgetDemand, Lower;
    DecrefCfgKept(s.slots, 0, h);
  }

  lemma StoreFailedCfg(s: State, f: FileRef, x: Slot)
    ensures StoreFailed(s, f, x).slots.cfg == s.slots.cfg
  {
    hide ReleaseStoreInflight, FileTerminal, Release;
    ReleaseCfg(s.slots, f.hash, x);
    ReleaseStoreCfg(s.(slots := Release(s.slots, x), work := FileTerminal(s.work, f, false)), f.hash, false);
  }

  // ---------- Steps ----------

  lemma LoadCfg(s: State, j: JobId, queued: bool)
    requires Unfinished(s.work, j)
    ensures ScheduleLoad(s, j, queued).slots.cfg == s.slots.cfg
  {
    hide Decref, AddCopies, StartFile, FileTerminal, Submit, Refused, SC.Get, SC.Pin, QueueLoadCopy, CanOpen, HasInflight, WaiterCount,
      Claimable, CancelOnePending, InflightAdd;
    var h, r := NextFile(s.work, j).hash, s.work.jobs[j].reqId;
    DecrefCfgKept(s.slots, r, h);
    var x := Claimable(s.slots, h);
    if x.Some? {
      KeepCfg(s.slots, h, x.value);
      DecrefCfgKept(AddCopies(s.slots, x.value, 1), r, h);
    }
  }

  lemma StoreCfg(s: State, j: JobId, launched: bool)
    requires Unfinished(s.work, j)
    ensures ScheduleStore(s, j, launched).slots.cfg == s.slots.cfg
  {
    hide ReserveForeground, StoreFailed, StartFile;
    ReserveCfg(s.slots);
    var (z, x) := ReserveForeground(s.slots);
    if x.Some? { StoreFailedCfg(s.(slots := z, work := StartFile(s.work, j)), NextFile(s.work, j), x.value); }
  }

  lemma LoadFdCfg(s: State, queued: bool, closed: bool)
    requires s.ring.readyLoad != []
    ensures DrainLoadFd(s, queued, closed).slots.cfg == s.slots.cfg
  {
    hide ReserveForeground, FileTerminal, Submit, Refused, AsyncClose, Release;
    ReserveCfg(s.slots);
    var (z, x) := ReserveForeground(s.slots);
    if x.Some? { ReleaseCfg(z, 0, x.value); }
  }

  lemma ReadPreloadCfg(s: State, r: (Slots, Option<Slot>), queued: bool, closed: bool)
    requires s.ring.readyPreload != [] && r.0.cfg == s.slots.cfg
    ensures ReadPreloadFd(s, r, queued, closed).slots.cfg == s.slots.cfg
  {
    hide FailWaiters, FailOneWaiter, InflightRemove, Submit, Refused, AsyncClose, Release;
    if r.1.Some? {
      var info, s1 := s.ring.readyPreload[0], s.(slots := r.0, ring := PopReadyPreload(s.ring));
      ReleaseCfg(r.0, 0, r.1.value);
      FailWaitersCfg(s1.(ring := AsyncClose(Refused(s1.ring), closed), slots := Release(s1.slots, r.1.value),
                         demand := InflightRemove(s1.demand, info.hash)), info.hash);
    }
  }

  lemma PreloadFdCfg(s: State, queued: bool, closed: bool)
    requires s.ring.readyPreload != []
    ensures DrainPreloadFd(s, queued, closed).slots.cfg == s.slots.cfg
  {
    hide ReadPreloadFd, ReserveForeground, ReservePreload, HasWaiter, HasDataBudget, RealLoadPressure, PendingPush, InflightRemove, AsyncClose;
    ReserveCfg(s.slots);
    ReadPreloadCfg(s, ReserveForeground(s.slots), queued, closed);
    ReadPreloadCfg(s, ReservePreload(s.slots), queued, closed);
  }

  lemma CopyDoneCfg(s: State, k: nat, tempOk: bool, queued: bool)
    requires k < |s.ring.pendingCopies|
    ensures CopyDone(s, k, tempOk, queued).slots.cfg == s.slots.cfg
  {
    hide SettleAll, StoreFailed, Submit;
    var s1 := s.(ring := s.ring.(pendingCopies := RemoveAt(s.ring.pendingCopies, k)));
    match s.ring.pendingCopies[k]
    case StoreCopy(f, x) =>
      var s2 := s1.(memory := s1.memory[x := f.hash]);
      StoreFailedCfg(s2.(ring := AddData(if tempOk then Refused(s2.ring) else s2.ring, -1)), f, x);
    case LoadBatch(members) => SettleAllCfg(s1, members, true);
  }

  lemma ReadDoneCfg(s: State, info: Info, x: Slot, ok: bool)
    ensures ReadPreloadDone(s, info, x, ok).slots.cfg == s.slots.cfg
  {
    hide FailWaiters, FailOneWaiter, ServeWaiters, InflightRemove, Release, KeepOrRelease, PopWaiter, PreloadPush;
    var h, s1 := info.hash, s.(demand := InflightRemove(s.demand, info.hash));
    ReleaseCfg(s1.slots, h, x);
    FailWaitersCfg(s1, h);
    FailWaitersCfg(s1.(slots := Release(s1.slots, x)), h);
    var s2 := Arrived(s1, h, x);
    ServeCfg(s2, h, x);
    KeepCfg(ServeWaiters(s2, h, x).slots, h, x);
    var s3 := s1.(memory := s1.memory[x := h]);
    PopWaiterIs(s3, h);
    PushCfg(s3.slots, x, info);
  }

  lemma PushCfg(z: Slots, x: Slot, info: Info)
    ensures PreloadPush(z, x, info).cfg == z.cfg
  {
  }

  lemma WriteDoneCfg(s: State, f: FileRef, x: Slot, ok: bool)
    ensures WriteDone(s, f, x, ok).slots.cfg == s.slots.cfg
  {
    hide ReleaseStoreInflight, StoreFailed, ReleaseOrCache, FileTerminal;
    ReleaseCfg(s.slots, f.hash, x);
    StoreFailedCfg(s, f, x);
    ReleaseStoreCfg(s.(slots := ReleaseOrCache(s.slots, f.hash, x), work := FileTerminal(s.work, f, true)), f.hash, true);
  }

  lemma OpenFailedCfg(s: State, info: Info)
    ensures PreloadOpenFailed(s, info).slots == s.slots
  {
    hide FailWaiters, FailOneWaiter, InflightRemove, PreloadMissed, HasWaiter;
    FailWaitersCfg(s.(demand := InflightRemove(s.demand, info.hash)), info.hash);
  }

  lemma OpCfg(s: State, ud: nat, ok: bool, closed: bool)
    requires ud in s.ring.inflight
    ensures OpCompletes(s, ud, ok, closed).slots.cfg == s.slots.cfg
  {
    hide WriteDone, ReadPreloadDone, PreloadOpenFailed, FileTerminal, Release, AsyncClose, QueueLoadCopy;
    var s1 := s.(ring := s.ring.(inflight := s.ring.inflight - {ud}));
    var open, data := s1.(ring := AddOpen(s1.ring, -1)), s1.(ring := AddData(s1.ring, -1));
    match s.ring.inflight[ud]
    case OpenPreload(info) => OpenFailedCfg(open, info);
    case ReadLoad(f, x) => ReleaseCfg(data.slots, f.hash, x);
    case ReadPreload(info, x) => ReadDoneCfg(data, info, x, ok);
    case Write(f, x) => WriteDoneCfg(data, f, x, ok);
    case _ =>
  }

  lemma StepCfg(s: State, e: Event)
    requires Enabled(s, e)
    ensures Step(s, e).Cfg() == s.Cfg()
  {
    hide IntakePreload, AnnounceStores, CopyDone, OpCompletes, ScheduleLoad, ScheduleStore, DrainLoadFd, DrainPreloadFd, SettleAll, Promotes,
      DropCancelled, HasDataBudget, RealLoadPressure, CanOpen, PreloadSlotsAvailable, Remaining, ForgetAllMissing, PendingPop, BlockOnWrite,
      InflightAdd, Submit, Refused;
    match e
    case PreloadRequest(r, hs) => IntakePreloadCfg(s, r, hs);
    case StoreRequest(r, hs) => AnnounceCfg(s, r, hs);
    case CopyCompletion(k, tempOk, queued) => CopyDoneCfg(s, k, tempOk, queued);
    case OpCompletion(ud, ok, closed) => OpCfg(s, ud, ok, closed);
    case LoadNext(j, queued) => LoadCfg(s, j, queued);
    case StoreNext(j, launched) => StoreCfg(s, j, launched);
    case ReadLoadFd(queued, closed) => LoadFdCfg(s, queued, closed);
    case PreloadFd(queued, closed) => PreloadFdCfg(s, queued, closed);
    case Flush(launched) => SettleAllCfg(s.(ring := s.ring.(copyReady := [])), s.ring.copyReady, false);
    case _ =>
  }

  lemma {:induction false} RunCfg(s: State, es: seq<Event>)
    requires IsRun(s, es)
    ensures After(s, es).Cfg() == s.Cfg()
    decreases |es|
  {
    hide Step, Enabled, IsRun, After;
    RunNothing(s);
    if es != [] {
      RunLast(s, es);
      RunCfg(s, es[..|es| - 1]);
      StepCfg(After(s, es[..|es| - 1]), es[|es| - 1]);
    }
  }
}
