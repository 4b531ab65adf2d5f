/** What a step leaves alone: what jobs are and how far failed ones got, files that were done, stores under
    way, and demand parked on a store. */
module ReactorFrames {
  import opened Outcomes
  import opened OrderedKeys
  import opened ReactorState
  import opened ReactorSlots
  import opened Reactor
  import SC = StagingCache

  // ---------- Four relations between a state and a later one ----------

  /** A failed job starts no more files. */
  predicate JobKept(a: Job, b: Job) {
    b.isStore == a.isStore && b.hashes == a.hashes && (a.failed ==> b.failed && b.next == a.next)
  }

  predicate JobsKept(w: Work, w': Work) {
    |w.jobs| <= |w'.jobs| && forall j :: 0 <= j < |w.jobs| ==> JobKept(w.jobs[j], w'.jobs[j])
  }

  /** Only failures have been added to the log. */
  predicate OnlyFailed(log: seq<FileEnd>, log': seq<FileEnd>) {
    log <= log' && forall i :: |log| <= i < |log'| ==> !log'[i].ok
  }

  /** No write and no store's copy has been added. */
  predicate NoNewStores(g: Ring, g': Ring) {
    && (forall ud :: ud in g'.inflight && g'.inflight[ud].Write? ==> ud in g.inflight && g.inflight[ud] == g'.inflight[ud])
    && (forall c :: c in g'.pendingCopies && c.StoreCopy? ==> c in g.pendingCopies)
  }

  /** The demand parked on a store of the hash is still parked, perhaps with more behind it. */
  predicate StaysParked(d: Demand, d': Demand, h: Hash) {
    h in d.blocked ==> h in d'.blocked && d.blocked[h] <= d'.blocked[h]
  }

  predicate AllParked(d: Demand, d': Demand) {
    forall h :: h in d.blocked ==> StaysParked(d, d', h)
  }

  predicate WorkCalm(w: Work, w': Work) { JobsKept(w, w') && OnlyFailed(w.log, w'.log) }

  /** Nothing about stores or finished files changes, except that files may fail. */
  predicate Calm(s: State, s': State) {
    WorkCalm(s.work, s'.work) && NoNewStores(s.ring, s'.ring) && AllParked(s.demand, s'.demand)
  }

  lemma WorkCalmTrans(a: Work, b: Work, c: Work)
    requires WorkCalm(a, b) && WorkCalm(b, c)
    ensures WorkCalm(a, c)
  {
    forall j | 0 <= j < |a.jobs| ensures JobKept(a.jobs[j], c.jobs[j]) { assert JobKept(b.jobs[j], c.jobs[j]); }
  }

  lemma JobsKeptTrans(a: Work, b: Work, c: Work)
    requires JobsKept(a, b) && JobsKept(b, c)
    ensures JobsKept(a, c)
  {
    forall j | 0 <= j < |a.jobs| ensures JobKept(a.jobs[j], c.jobs[j]) { assert JobKept(b.jobs[j], c.jobs[j]); }
  }

  lemma ParkedTrans(a: Demand, b: Demand, c: Demand)
    requires AllParked(a, b) && AllParked(b, c)
    ensures AllParked(a, c)
  {
    forall h | h in a.blocked ensures StaysParked(a, c, h) { assert StaysParked(a, b, h); }
  }

  lemma SameWork(w: Work, w': Work)
    requires w'.jobs == w.jobs && w'.log == w.log
    ensures WorkCalm(w, w')
  {
  }

  lemma SameBlocked(d: Demand, d': Demand)
    requires d'.blocked == d.blocked
    ensures AllParked(d, d')
  {
  }

  // ---------- Jobs and files ----------

  lemma FailedCalm(w: Work, f: FileRef)
    ensures WorkCalm(w, FileTerminal(w, f, false))
  {
  }

  lemma EndedKeeps(w: Work, f: FileRef, ok: bool)
    ensures JobsKept(w, FileTerminal(w, f, ok))
    ensures FileTerminal(w, f, ok).log == w.log || FileTerminal(w, f, ok).log == w.log + [FileEnd(f, ok)]
  {
  }

  lemma StartedCalm(w: Work, j: JobId)
    requires j < |w.jobs| && !w.jobs[j].failed
    ensures WorkCalm(w, StartFile(w, j))
  {
  }

  lemma StartedFailedCalm(w: Work, j: JobId, f: FileRef)
    requires j < |w.jobs| && !w.jobs[j].failed
    ensures WorkCalm(w, FileTerminal(StartFile(w, j), f, false))
  {
    hide FileTerminal, StartFile, WorkCalm;
    StartedCalm(w, j);
    FailedCalm(StartFile(w, j), f);
    WorkCalmTrans(w, StartFile(w, j), FileTerminal(StartFile(w, j), f, false));
  }

  lemma NewJobCalm(w: Work, j: Job, active: seq<JobId>)
    ensures WorkCalm(w, w.(jobs := w.jobs + [j], active := active))
  {
  }

  // ---------- The ring ----------

  lemma SubmittedCalm(g: Ring, op: Op)
    requires !op.Write?
    ensures NoNewStores(g, Submit(g, op)) && NoNewStores(g, Refused(g))
  {
  }

  /** The operations and the copies under way are the same. */
  predicate SameStores(g: Ring, g': Ring) {
    g'.inflight == g.inflight && g'.pendingCopies == g.pendingCopies
  }

  lemma SameStoresCalm(a: Ring, b: Ring, c: Ring)
    requires SameStores(a, b) && NoNewStores(b, c)
    ensures NoNewStores(a, c)
  {
  }

  // ---------- Waiting files ----------

  lemma {:induction false} FailWaitersCalm(s: State, h: Hash)
    ensures WorkCalm(s.work, FailWaiters(s, h).work)
    ensures FailWaiters(s, h).ring == s.ring && FailWaiters(s, h).demand == s.demand
    ensures FailWaiters(s, h).slots == s.slots && FailWaiters(s, h).memory == s.memory
    decreases |s.waiters|
  {
    hide FailWaiters, FileTerminal, PopWaiter, WorkCalm;
    FailAllIs(s, h);
    SameWork(s.work, s.work);
    var (s', f) := PopWaiter(s, h);
    if f.Some? {
      var s1 := s.(waiters := s'.waiters, work := FileTerminal(s.work, f.value, false));
      FailWaitersCalm(s1, h);
      FailedCalm(s.work, f.value);
      WorkCalmTrans(s.work, s1.work, FailWaiters(s1, h).work);
    }
  }

  lemma FailOneCalm(s: State, h: Hash)
    ensures WorkCalm(s.work, FailOneWaiter(s, h).work)
    ensures FailOneWaiter(s, h).ring == s.ring && FailOneWaiter(s, h).demand == s.demand
    ensures FailOneWaiter(s, h).slots == s.slots && FailOneWaiter(s, h).memory == s.memory
  {
    hide FileTerminal, PopWaiter, WorkCalm, FailOneWaiter;
    FailOneIs(s, h);
    SameWork(s.work, s.work);
    var (s', f) := PopWaiter(s, h);
    if f.Some? { FailedCalm(s.work, f.value); }
  }

  lemma {:induction false} ServeKeeps(s: State, h: Hash, x: Slot)
    ensures var s' := ServeWaiters(s, h, x);
      s'.work == s.work && s'.demand == s.demand && SameStores(s.ring, s'.ring) && s'.memory == s.memory
    decreases |s.waiters|
  {
    hide ServeWaiters, Served, Decref, AddCopies, PopWaiter, HasWaiter;
    ServeIs(s, h, x);
    ServedIs(s, h, x);
    if HasWaiter(s, h) { ServeKeeps(Served(s, h, x), h, x); }
  }

  // ---------- Copies settle ----------

  lemma {:induction false} SettledKeeps(s: State, cs: seq<LoadCopy>, ok: bool)
    ensures var s' := SettleAll(s, cs, ok);
      s'.ring == s.ring && s'.demand == s.demand && s'.waiters == s.waiters && s'.memory == s.memory && JobsKept(s.work, s'.work)
    decreases |cs|
  {
    hide SettleLoadSlot, FileTerminal, JobsKept;
    if cs != [] {
      var front, c := cs[..|cs| - 1], cs[|cs| - 1];
      SettledKeeps(s, front, ok);
      EndedKeeps(SettleAll(s, front, ok).work, c.file, ok);
      JobsKeptTrans(s.work, SettleAll(s, front, ok).work, SettleAll(s, cs, ok).work);
    } else {
      SameWork(s.work, s.work);
    }
  }

  lemma {:induction false} SettledFailedCalm(s: State, cs: seq<LoadCopy>)
    ensures WorkCalm(s.work, SettleAll(s, cs, false).work)
    decreases |cs|
  {
    hide SettleLoadSlot, FileTerminal, WorkCalm;
    if cs != [] {
      var front, c := cs[..|cs| - 1], cs[|cs| - 1];
      SettledFailedCalm(s, front);
      FailedCalm(SettleAll(s, front, false).work, c.file);
      WorkCalmTrans(s.work, SettleAll(s, front, false).work, SettleAll(s, cs, false).work);
    } else {
      SameWork(s.work, s.work);
    }
  }

  /** Every log entry that is new is that of one of the copies. */
  lemma {:induction false} SettledLog(s: State, cs: seq<LoadCopy>, ok: bool, e: FileEnd)
    requires e in SettleAll(s, cs, ok).work.log
    ensures e in s.work.log || exists c :: c in cs && e == FileEnd(c.file, ok)
    decreases |cs|
  {
    hide SettleLoadSlot, FileTerminal;
    if cs != [] {
      var front, c := cs[..|cs| - 1], cs[|cs| - 1];
      EndedKeeps(SettleAll(s, front, ok).work, c.file, ok);
      if e in SettleAll(s, front, ok).work.log {
        SettledLog(s, front, ok, e);
      } else {
        assert e == FileEnd(c.file, ok) && c in cs;
      }
    }
  }

  // ---------- Intake ----------

  lemma PushKeepsBlocked(d: Demand, info: Info)
    ensures PendingPush(d, info).blocked == d.blocked && AddMissing(d, info).blocked == d.blocked
  {
  }

  lemma IntakeDemandCalm(s: State, r: ReqId, h: Hash)
    ensures var s' := IntakeDemand(s, r, h);
      && s'.work == s.work && s'.ring == s.ring && s'.demand.blocked == s.demand.blocked
      && s'.waiters == s.waiters && s'.memory == s.memory
  {
    hide HasAnySharedState, PendingPush, AddMissing, Suffix, Raise;
    PushKeepsBlocked(s.demand, Info(h, r));
  }

  lemma {:induction false} IntakePreloadCalm(s: State, r: ReqId, hs: seq<Hash>)
    ensures var s' := IntakePreload(s, r, hs);
      && s'.work == s.work && s'.ring == s.ring && s'.demand.blocked == s.demand.blocked
      && s'.waiters == s.waiters && s'.memory == s.memory
    decreases |hs|
  {
    hide IntakeDemand;
    if hs != [] {
      IntakePreloadCalm(s, r, hs[..|hs| - 1]);
      IntakeDemandCalm(IntakePreload(s, r, hs[..|hs| - 1]), r, hs[|hs| - 1]);
    }
  }

  lemma {:induction false} ForgetKeepsBlocked(d: Demand, hs: seq<Hash>)
    ensures ForgetAllMissing(d, hs).blocked == d.blocked
    decreases |hs|
  {
    if hs != [] { ForgetKeepsBlocked(d, hs[..|hs| - 1]); }
  }

  lemma SameCalm(s: State, s': State)
    requires WorkCalm(s.work, s'.work) && SameStores(s.ring, s'.ring) && s'.demand.blocked == s.demand.blocked
    ensures Calm(s, s')
  {
    hide WorkCalm;
  }

  lemma LoadRequestCalm(s: State, r: ReqId, hs: seq<Hash>, declined: bool)
    ensures Calm(s, IntakeLoad(s, r, hs, declined))
  {
    hide WorkCalm, ForgetAllMissing, NewJob, AllParked, NoNewStores;
    ForgetKeepsBlocked(s.demand, hs);
    NewJobCalm(s.work, NewJob(false, r, hs).(futureSet := true, outcomes := [Declined]), s.work.active);
    NewJobCalm(s.work, NewJob(false, r, hs), s.work.active + [|s.work.jobs|]);
    SameCalm(s, IntakeLoad(s, r, hs, declined));
  }

  lemma BlockedMore(d: Demand, h: Hash, infos: seq<Info>)
    ensures AllParked(d, BlockOnWrite(d, h, infos))
  {
  }

  lemma AnnouncedParks(d: Demand, refcount: map<Hash, int>, share: bool, producer: ReqId, h: Hash)
    ensures AllParked(d, Announced(d, refcount, share, producer, h))
  {
    hide AllParked, BlockOnWrite, Rearm, Without;
    var d1, rearm := ForgetMissing(d, h), Rearm(d, refcount, share, producer, h);
    SameBlocked(d, d1);
    BlockedMore(d1, h, rearm);
    ParkedTrans(d, d1, BlockOnWrite(d1, h, rearm));
    var d2 := if rearm == [] then d1 else BlockOnWrite(d1, h, rearm);
    SameBlocked(d2, Announced(d, refcount, share, producer, h));
    ParkedTrans(d, d2, Announced(d, refcount, share, producer, h));
  }

  lemma {:induction false} AnnounceStoresCalm(s: State, r: ReqId, hs: seq<Hash>)
    ensures var s' := AnnounceStores(s, r, hs);
      && s'.work == s.work && s'.ring == s.ring && AllParked(s.demand, s'.demand)
      && s'.waiters == s.waiters && s'.memory == s.memory
    decreases |hs|
  {
    hide Announced, Decref, AllParked;
    if hs == [] {
      SameBlocked(s.demand, s.demand);
    } else {
      var s1, h := AnnounceStores(s, r, hs[..|hs| - 1]), hs[|hs| - 1];
      AnnounceStoresCalm(s, r, hs[..|hs| - 1]);
      var z := if s1.Cfg().sharePreload then Decref(s1.slots, r, h) else s1.slots;
      AnnouncedParks(s1.demand, z.refcount, s1.Cfg().sharePreload, r, h);
      ParkedTrans(s.demand, s1.demand, AnnounceStore(s1, r, h).demand);
    }
  }

  lemma StoreRequestCalm(s: State, r: ReqId, hs: seq<Hash>)
    ensures Calm(s, IntakeStore(s, r, hs))
  {
    hide WorkCalm, AnnounceStores, NewJob, AllParked;
    AnnounceStoresCalm(s, r, hs);
    NewJobCalm(s.work, NewJob(true, r, hs), s.work.active + [|s.work.jobs|]);
  }

  // ---------- Scheduling ----------

  lemma CancelKeepsBlocked(d: Demand, h: Hash)
    ensures CancelOnePending(d, h).blocked == d.blocked && InflightAdd(d, h).blocked == d.blocked && InflightRemove(d, h).blocked == d.blocked
  {
    hide Raise, Lower;
  }

  lemma OpenForLoadCalm(s: State, j: JobId, queued: bool)
    requires Unfinished(s.work, j) && !s.work.jobs[j].failed
    ensures Calm(s, OpenForLoad(s, j, queued))
  {
    hide WorkCalm, StartFile, FileTerminal, Submit, Refused, NoNewStores, AllParked;
    var f := NextFile(s.work, j);
    StartedCalm(s.work, j);
    StartedFailedCalm(s.work, j, f);
    var g := AddOpen(s.ring, 1);
    SubmittedCalm(g, OpenLoad(f));
    SubmittedCalm(s.ring, OpenLoad(f));
    SameStoresCalm(s.ring, g, Submit(g, OpenLoad(f)));
    SameBlocked(s.demand, s.demand);
  }

  lemma OpenPreloadCalm(s: State, info: Info, queued: bool)
    ensures var s' := SubmitOpenPreload(s, info, queued);
      s'.work == s.work && NoNewStores(s.ring, s'.ring) && s'.demand.blocked == s.demand.blocked
  {
    hide Submit, Refused, NoNewStores, InflightAdd;
    var g := AddOpen(s.ring, 1);
    SubmittedCalm(g, OpenPreload(info));
    SubmittedCalm(s.ring, OpenPreload(info));
    SameStoresCalm(s.ring, g, Submit(g, OpenPreload(info)));
    CancelKeepsBlocked(s.demand, info.hash);
  }

  lemma PromoteCalm(s: State, j: JobId, queued: bool)
    requires Unfinished(s.work, j) && !s.work.jobs[j].failed
    ensures Calm(s, PromotePending(s, j, queued))
  {
    hide WorkCalm, StartFile, SubmitOpenPreload, CancelOnePending, NoNewStores, AllParked;
    var f := NextFile(s.work, j);
    var s1 := s.(demand := CancelOnePending(s.demand, f.hash));
    CancelKeepsBlocked(s.demand, f.hash);
    OpenPreloadCalm(s1, Info(f.hash, s.work.jobs[j].reqId), queued);
    StartedCalm(s.work, j);
    SameBlocked(s.demand, PromotePending(s, j, queued).demand);
  }

  lemma WaitCalm(s: State, j: JobId)
    requires Unfinished(s.work, j) && !s.work.jobs[j].failed
    ensures Calm(s, WaitForInflight(s, j))
  {
    hide WorkCalm, StartFile, NoNewStores, AllParked;
    StartedCalm(s.work, j);
    SameCalm(s, WaitForInflight(s, j));
  }

  lemma HitsCalm(s: State, j: JobId, x: Slot)
    requires Unfinished(s.work, j) && !s.work.jobs[j].failed
    ensures Calm(s, CacheHit(s, j, x)) && Calm(s, ClaimShared(s, j, x)) && Calm(s, ClaimPrivate(s, j))
  {
    hide WorkCalm, StartFile, NoNewStores, AllParked, Decref, AddCopies, PreloadPop, SC.Pin, Calm;
    StartedCalm(s.work, j);
    SameWork(s.work, s.work);
    SameCalm(s, CacheHit(s, j, x));
    SameCalm(s, ClaimShared(s, j, x));
    SameCalm(s, ClaimPrivate(s, j));
  }

  lemma CalmSlots(s: State, s': State, z: Slots)
    requires Calm(s, s')
    ensures Calm(s, s'.(slots := z)) && Calm(s.(slots := z), s')
  {
    hide WorkCalm, NoNewStores, AllParked;
  }

  lemma CalmDemand(s: State, s': State, d: Demand)
    requires Calm(s, s') && d.blocked == s'.demand.blocked
    ensures Calm(s, s'.(demand := d))
  {
    hide WorkCalm, NoNewStores;
  }

  lemma CalmSelf(s: State)
    ensures Calm(s, s)
  {
    SameWork(s.work, s.work);
    SameCalm(s, s);
  }

  lemma ScheduleLoadCalm(s: State, j: JobId, queued: bool)
    requires Unfinished(s.work, j) && !s.work.jobs[j].failed
    ensures Calm(s, ScheduleLoad(s, j, queued))
  {
    hide Calm, CacheHit, ClaimShared, ClaimPrivate, WaitForInflight, PromotePending, OpenForLoad, CancelOnePending, Decref, CanOpen,
      HasInflight, HasPrivateCopy, Claimable, WaiterCount, SC.Get;
    CalmSelf(s);
    var h := NextFile(s.work, j).hash;
    if s.Cfg().hasCache && h in s.slots.cache.slots {
      var z := s.slots.(cache := SC.Get(s.slots.cache, h).0);
      HitsCalm(s.(slots := z), j, s.slots.cache.slots[h].slotIndex);
      CalmSlots(s.(slots := z), ScheduleLoad(s, j, queued), s.slots);
    } else {
      WaitCalm(s, j);
      OpenForLoadCalm(s, j, queued);
      var s1 := OpenForLoad(s, j, queued);
      if s.Cfg().sharePreload {
        PromoteCalm(s, j, queued);
        CalmSlots(s, s1, Decref(s1.slots, s.work.jobs[j].reqId, h));
        var x := Claimable(s.slots, h);
        if x.Some? { HitsCalm(s, j, x.value); }
      } else {
        HitsCalm(s, j, 0);
        CancelKeepsBlocked(s1.demand, h);
        CalmDemand(s, s1, CancelOnePending(s1.demand, h));
      }
    }
  }

  // ---------- Reads and preloads ----------

  lemma CloseCalm(g: Ring, queued: bool)
    ensures NoNewStores(g, AsyncClose(g, queued)) && NoNewStores(g, AsyncClose(Refused(g), queued))
  {
  }

  lemma ReadCalm(g: Ring, op: Op)
    requires !op.Write?
    ensures NoNewStores(g, Submit(AddData(g, 1), op))
  {
  }

  lemma DrainLoadCalm(s: State, queued: bool, closed: bool)
    requires s.ring.readyLoad != []
    ensures Calm(s, DrainLoadFd(s, queued, closed))
  {
    hide WorkCalm, FileTerminal, Submit, Refused, AsyncClose, NoNewStores, AllParked, ReserveForeground, Release, AddData;
    var f, g := s.ring.readyLoad[0], s.ring.(readyLoad := s.ring.readyLoad[1..]);
    SameWork(s.work, s.work);
    FailedCalm(s.work, f);
    SameBlocked(s.demand, s.demand);
    CalmRingSelf(s.ring);
    var x := ReserveForeground(s.slots).1;
    if x.Some? {
      ReadCalm(g, ReadLoad(f, x.value));
      CloseCalm(g, closed);
      SameStoresCalm(s.ring, g, Submit(AddData(g, 1), ReadLoad(f, x.value)));
      SameStoresCalm(s.ring, g, AsyncClose(Refused(g), closed));
    }
  }

  lemma CalmRingSelf(g: Ring)
    ensures NoNewStores(g, g)
  {
  }

  lemma ReadRefused(s: State, info: Info, x: Slot, closed: bool)
    ensures Calm(s, SubmitReadPreload(s, info, x, false, closed))
  {
    hide WorkCalm, Refused, AsyncClose, NoNewStores, AllParked, Release, InflightRemove, FailWaiters, FailOneWaiter;
    CloseCalm(s.ring, closed);
    var s1 := s.(ring := AsyncClose(Refused(s.ring), closed), slots := Release(s.slots, x), demand := InflightRemove(s.demand, info.hash));
    CancelKeepsBlocked(s.demand, info.hash);
    SameBlocked(s.demand, s1.demand);
    FailWaitersCalm(s1, info.hash);
    FailOneCalm(s1, info.hash);
  }

  lemma ReadQueued(s: State, info: Info, x: Slot, closed: bool)
    ensures Calm(s, SubmitReadPreload(s, info, x, true, closed))
  {
    hide WorkCalm, Submit, NoNewStores, AllParked, AddData;
    ReadCalm(s.ring, ReadPreload(info, x));
    SameWork(s.work, s.work);
    SameBlocked(s.demand, s.demand);
  }

  lemma PoppedCalm(s: State, s': State, g: Ring, z: Slots)
    requires SameStores(s.ring, g) && Calm(s.(slots := z, ring := g), s')
    ensures Calm(s, s')
  {
    hide WorkCalm, AllParked;
  }

  lemma ReadPreloadFdCalm(s: State, r: (Slots, Option<Slot>), queued: bool, closed: bool)
    requires s.ring.readyPreload != []
    ensures Calm(s, ReadPreloadFd(s, r, queued, closed))
  {
    hide Calm, SubmitReadPreload;
    CalmSelf(s);
    CalmSlots(s, s, r.0);
    if r.1.Some? {
      var s1, info := s.(slots := r.0, ring := PopReadyPreload(s.ring)), s.ring.readyPreload[0];
      if queued { ReadQueued(s1, info, r.1.value, closed); } else { ReadRefused(s1, info, r.1.value, closed); }
      PoppedCalm(s, SubmitReadPreload(s1, info, r.1.value, queued, closed), PopReadyPreload(s.ring), r.0);
    }
  }

  lemma YieldCalm(s: State, closed: bool)
    requires s.ring.readyPreload != []
    ensures Calm(s, YieldOpenFd(s, closed))
  {
    hide WorkCalm, AsyncClose, NoNewStores, AllParked, InflightRemove, PendingPush;
    var info, g := s.ring.readyPreload[0], PopReadyPreload(s.ring);
    CloseCalm(g, closed);
    SameStoresCalm(s.ring, g, AsyncClose(g, closed));
    CancelKeepsBlocked(s.demand, info.hash);
    PushKeepsBlocked(InflightRemove(s.demand, info.hash), info);
    SameWork(s.work, s.work);
    SameBlocked(s.demand, YieldOpenFd(s, closed).demand);
  }

  lemma DrainPreloadCalm(s: State, queued: bool, closed: bool)
    requires s.ring.readyPreload != []
    ensures Calm(s, DrainPreloadFd(s, queued, closed))
  {
    hide Calm, ReadPreloadFd, YieldOpenFd, HasWaiter, HasDataBudget, RealLoadPressure, ReserveForeground, ReservePreload;
    CalmSelf(s);
    ReadPreloadFdCalm(s, ReserveForeground(s.slots), queued, closed);
    ReadPreloadFdCalm(s, ReservePreload(s.slots), queued, closed);
    YieldCalm(s, closed);
  }

  lemma PoppedDemand(d: Demand, info: Info)
    requires d.pending != []
    ensures PendingPop(d).blocked == d.blocked && DropCancelled(d).blocked == d.blocked
    ensures AllParked(d, BlockOnWrite(PendingPop(d), info.hash, [info]))
  {
    hide Lower;
  }

  lemma SpeculateCalm(s: State, queued: bool)
    requires s.demand.pending != []
    ensures Calm(s, Speculate(s, queued))
  {
    hide WorkCalm, NoNewStores, AllParked, SubmitOpenPreload, BlockOnWrite, PendingPop, DropCancelled;
    var info := s.demand.pending[0];
    PoppedDemand(s.demand, info);
    OpenPreloadCalm(s.(demand := PendingPop(s.demand)), info, queued);
    SameWork(s.work, s.work);
    CalmRingSelf(s.ring);
    SameBlocked(s.demand, DropCancelled(s.demand));
    SameBlocked(s.demand, SubmitOpenPreload(s.(demand := PendingPop(s.demand)), info, queued).demand);
  }

  lemma BatchedCalm(g: Ring)
    ensures NoNewStores(g, g.(copyReady := [], pendingCopies := g.pendingCopies + [LoadBatch(g.copyReady)]))
  {
  }

  lemma FlushCalm(s: State, launched: bool)
    ensures Calm(s, FlushCopies(s, launched))
  {
    hide WorkCalm, NoNewStores, AllParked, SettleAll;
    SameWork(s.work, s.work);
    SameBlocked(s.demand, s.demand);
    BatchedCalm(s.ring);
    var s1 := s.(ring := s.ring.(copyReady := []));
    SettledKeeps(s1, s.ring.copyReady, false);
    SettledFailedCalm(s1, s.ring.copyReady);
    CalmRingSelf(s.ring);
    CalmRingSelf(s1.ring);
    SameStoresCalm(s.ring, s1.ring, s1.ring);
  }

  // ---------- Completions ----------

  lemma {:induction false} TrimKeepsBlocked(d: Demand)
    ensures TrimMissing(d).blocked == d.blocked
    decreases |d.missingOrder|
  {
    if |d.missingOrder| > MAX_KNOWN_MISSING {
      TrimKeepsBlocked(d.(missing := d.missing - {d.missingOrder[0]}, missingOrder := d.missingOrder[1..]));
    }
  }

  lemma MissedParks(d: Demand, info: Info)
    ensures AllParked(d, PreloadMissed(d, info))
  {
    hide AllParked, BlockOnWrite, AddMissing, TrimMissing;
    PushKeepsBlocked(d, info);
    TrimKeepsBlocked(AddMissing(d, info));
    SameBlocked(d, RememberMissing(d, info));
    BlockedMore(d, info.hash, [info]);
  }

  lemma OpenFailedCalm(s: State, info: Info)
    ensures Calm(s, PreloadOpenFailed(s, info))
  {
    hide WorkCalm, NoNewStores, AllParked, InflightRemove, PreloadMissed, FailWaiters, FailOneWaiter, HasWaiter;
    var s1 := s.(demand := InflightRemove(s.demand, info.hash));
    CancelKeepsBlocked(s.demand, info.hash);
    SameBlocked(s.demand, s1.demand);
    SameWork(s.work, s.work);
    CalmRingSelf(s.ring);
    MissedParks(s1.demand, info);
    ParkedTrans(s.demand, s1.demand, PreloadMissed(s1.demand, info));
    FailWaitersCalm(s1, info.hash);
    FailOneCalm(s1, info.hash);
  }

  lemma OpensCalm(s: State, f: FileRef, info: Info, ok: bool)
    ensures Calm(s, OpenLoadDone(s, f, ok)) && Calm(s, OpenPreloadDone(s, info, ok))
  {
    hide WorkCalm, AllParked, FileTerminal, PreloadOpenFailed;
    SameWork(s.work, s.work);
    SameBlocked(s.demand, s.demand);
    FailedCalm(s.work, f);
    OpenFailedCalm(s, info);
  }

  lemma ReadLoadCalm(s: State, f: FileRef, x: Slot, ok: bool)
    ensures Calm(s, ReadLoadDone(s, f, x, ok))
  {
    hide WorkCalm, AllParked, FileTerminal, Release;
    SameWork(s.work, s.work);
    SameBlocked(s.demand, s.demand);
    FailedCalm(s.work, f);
  }

  lemma PrivateReadCalm(s: State, info: Info, x: Slot, ok: bool)
    ensures Calm(s, PrivateReadDone(s, info, x, ok))
  {
    hide WorkCalm, AllParked, FailOneWaiter, Release, InflightRemove, PopWaiter, PreloadPush, HasWaiter;
    var s1 := s.(demand := InflightRemove(s.demand, info.hash));
    CancelKeepsBlocked(s.demand, info.hash);
    SameBlocked(s.demand, s1.demand);
    SameWork(s.work, s.work);
    PopWaiterIs(s1.(memory := s1.memory[x := info.hash]), info.hash);
    FailOneCalm(s1.(slots := Release(s1.slots, x)), info.hash);
  }

  lemma SharedReadCalm(s: State, info: Info, x: Slot, ok: bool)
    ensures Calm(s, SharedReadDone(s, info, x, ok))
  {
    hide WorkCalm, AllParked, NoNewStores, FailWaiters, Release, InflightRemove, ServeWaiters, KeepOrRelease;
    var s1 := s.(demand := InflightRemove(s.demand, info.hash));
    CancelKeepsBlocked(s.demand, info.hash);
    SameBlocked(s.demand, s1.demand);
    SameWork(s.work, s.work);
    CalmRingSelf(s.ring);
    if ok {
      var s2 := Arrived(s1, info.hash, x);
      ServeKeeps(s2, info.hash, x);
      SameCalm(s1, ServeWaiters(s2, info.hash, x));
    } else {
      FailWaitersCalm(s1, info.hash);
    }
  }

  lemma CalmRing(s: State, s': State, g: Ring)
    requires Calm(s, s') && NoNewStores(s'.ring, g)
    ensures Calm(s, s'.(ring := g))
  {
    hide WorkCalm, AllParked;
  }

  lemma CalmAfterRing(s: State, s': State, g: Ring)
    requires NoNewStores(s.ring, g) && Calm(s.(ring := g), s')
    ensures Calm(s, s')
  {
    hide WorkCalm, AllParked;
  }

  lemma OpTakenCalm(g: Ring, ud: nat)
    ensures NoNewStores(g, g.(inflight := g.inflight - {ud}))
    ensures NoNewStores(g, AddOpen(g, -1)) && NoNewStores(g, AddData(g, -1))
  {
  }

  lemma OpDoneCalm(s: State, op: Op, ok: bool, closed: bool)
    requires !op.Write?
    ensures Calm(s, OpDone(s, op, ok, closed))
  {
    hide Calm, NoNewStores, OpenLoadDone, OpenPreloadDone, ReadLoadDone, PrivateReadDone, SharedReadDone, AsyncClose;
    CalmSelf(s);
    OpTakenCalm(s.ring, 0);
    var open, data := s.(ring := AddOpen(s.ring, -1)), s.(ring := AddData(s.ring, -1));
    match op
    case OpenLoad(f) =>
      OpensCalm(open, f, Info(0, 0), ok);
      CalmAfterRing(s, OpenLoadDone(open, f, ok), open.ring);
    case OpenPreload(info) =>
      OpensCalm(open, FileRef(0, 0, 0), info, ok);
      CalmAfterRing(s, OpenPreloadDone(open, info, ok), open.ring);
    case ReadLoad(f, x) =>
      ReadLoadCalm(data, f, x, ok);
      var s1 := ReadLoadDone(data, f, x, ok);
      CloseCalm(s1.ring, closed);
      CalmRing(data, s1, AsyncClose(s1.ring, closed));
      CalmAfterRing(s, Closing(s1, closed), data.ring);
    case ReadPreload(info, x) =>
      PrivateReadCalm(data, info, x, ok);
      SharedReadCalm(data, info, x, ok);
      var s1 := ReadPreloadDone(data, info, x, ok);
      CloseCalm(s1.ring, closed);
      CalmRing(data, s1, AsyncClose(s1.ring, closed));
      CalmAfterRing(s, Closing(s1, closed), data.ring);
    case Close =>
  }

  lemma OpCompletesCalm(s: State, ud: nat, ok: bool, closed: bool)
    requires ud in s.ring.inflight && !s.ring.inflight[ud].Write?
    ensures Calm(s, OpCompletes(s, ud, ok, closed))
  {
    hide Calm, NoNewStores, OpDone;
    var g := s.ring.(inflight := s.ring.inflight - {ud});
    OpTakenCalm(s.ring, ud);
    OpDoneCalm(s.(ring := g), s.ring.inflight[ud], ok, closed);
    CalmAfterRing(s, OpCompletes(s, ud, ok, closed), g);
  }

  // ---------- Stores ----------

  lemma {:induction false} PushAllKeepsBlocked(d: Demand, infos: seq<Info>)
    ensures PendingPushAll(d, infos).blocked == d.blocked
    decreases |infos|
  {
    hide Raise;
    if infos != [] { PushAllKeepsBlocked(d, infos[..|infos| - 1]); }
  }

  lemma WokenKeeps(s: State, h: Hash, infos: seq<Info>)
    requires infos != []
    ensures var s' := WakeParked(s, h, infos);
      && s'.work == s.work && s'.ring == s.ring && s'.demand.blocked == s.demand.blocked
      && s'.waiters == s.waiters && s'.memory == s.memory
  {
    hide PendingPushAll, PendingPush, ForgetDemand;
    PushAllKeepsBlocked(s.demand, infos);
    PushKeepsBlocked(s.demand, infos[0]);
  }

  /** Only the end of a hash's last store touches the demand parked on it. */
  lemma ReleaseKeeps(s: State, h: Hash, ok: bool)
    ensures var s' := ReleaseStoreInflight(s, h, ok);
      && s'.work == s.work && s'.ring == s.ring && s'.waiters == s.waiters && s'.memory == s.memory
      && (forall g :: StaysParked(s.demand, s'.demand, g) || (g == h && Count(s.demand.storeInflight, h) <= 1))
  {
    hide WakeParked, Lower;
    var infos := if h in s.demand.blocked then s.demand.blocked[h] else [];
    var d1 := s.demand.(storeInflight := Lower(s.demand.storeInflight, h), blocked := s.demand.blocked - {h});
    if infos != [] { WokenKeeps(s.(demand := d1), h, infos); }
  }

  /** The step may have ended a store of the hash, and nothing else that is parked has moved. */
  ghost predicate StoreStep(s: State, s': State, h: Hash) {
    && JobsKept(s.work, s'.work)
    && (forall g :: StaysParked(s.demand, s'.demand, g) || (g == h && Count(s.demand.storeInflight, h) <= 1))
  }

  lemma StoreFailedStep(s: State, f: FileRef, x: Slot)
    ensures StoreStep(s, StoreFailed(s, f, x), f.hash)
    ensures OnlyFailed(s.work.log, StoreFailed(s, f, x).work.log) && StoreFailed(s, f, x).ring == s.ring
    ensures StoreFailed(s, f, x).waiters == s.waiters && StoreFailed(s, f, x).memory == s.memory
  {
    hide FileTerminal, ReleaseStoreInflight, Release, StaysParked, JobsKept, OnlyFailed;
    FailedCalm(s.work, f);
    ReleaseKeeps(s.(slots := Release(s.slots, x), work := FileTerminal(s.work, f, false)), f.hash, false);
  }

  lemma WriteDoneStep(s: State, f: FileRef, x: Slot, ok: bool)
    ensures StoreStep(s, WriteDone(s, f, x, ok), f.hash) && WriteDone(s, f, x, ok).ring == s.ring
    ensures WriteDone(s, f, x, ok).waiters == s.waiters && WriteDone(s, f, x, ok).memory == s.memory
    ensures forall e :: e in WriteDone(s, f, x, ok).work.log ==> e in s.work.log || e == FileEnd(f, ok)
  {
    hide FileTerminal, ReleaseStoreInflight, StoreFailed, ReleaseOrCache, StaysParked, JobsKept;
    StoreFailedStep(s, f, x);
    StoreFailedLog(s, f, x);
    EndedKeeps(s.work, f, true);
    ReleaseKeeps(s.(slots := ReleaseOrCache(s.slots, f.hash, x), work := FileTerminal(s.work, f, true)), f.hash, true);
  }

  lemma StoreFailedLog(s: State, f: FileRef, x: Slot)
    ensures forall e :: e in StoreFailed(s, f, x).work.log ==> e in s.work.log || e == FileEnd(f, false)
  {
    hide FileTerminal, ReleaseStoreInflight, Release, StaysParked;
    EndedKeeps(s.work, f, false);
    ReleaseKeeps(s.(slots := Release(s.slots, x), work := FileTerminal(s.work, f, false)), f.hash, false);
  }

  lemma SameParked(d: Demand)
    ensures forall g :: StaysParked(d, d, g)
  {
  }

  lemma StoreCopyDoneStep(s: State, f: FileRef, x: Slot, tempOk: bool, queued: bool)
    ensures StoreStep(s, StoreCopyDone(s, f, x, tempOk, queued), f.hash)
    ensures OnlyFailed(s.work.log, StoreCopyDone(s, f, x, tempOk, queued).work.log)
    ensures var g := StoreCopyDone(s, f, x, tempOk, queued).ring;
      || NoNewStores(s.ring, g)
      || g == Submit(s.ring, Write(f, x))
  {
    hide StoreFailed, StaysParked, JobsKept;
    SameParked(s.demand);
    JobsSame(s.work);
    StoreFailedStep(s.(ring := AddData(if tempOk then Refused(s.ring) else s.ring, -1)), f, x);
  }

  lemma JobsSame(w: Work)
    ensures JobsKept(w, w)
  {
  }

  lemma ScheduleStoreStep(s: State, j: JobId, launched: bool)
    requires Unfinished(s.work, j) && !s.work.jobs[j].failed
    ensures StoreStep(s, ScheduleStore(s, j, launched), NextFile(s.work, j).hash)
    ensures OnlyFailed(s.work.log, ScheduleStore(s, j, launched).work.log)
    ensures var g := ScheduleStore(s, j, launched).ring;
      g.inflight == s.ring.inflight
      && forall c :: c in g.pendingCopies ==> c in s.ring.pendingCopies || (c.StoreCopy? && c.file == NextFile(s.work, j))
  {
    hide StoreFailed, StaysParked, JobsKept, StartFile, OnlyFailed;
    SameParked(s.demand);
    StartedCalm(s.work, j);
    JobsSame(s.work);
    var (z, x) := ReserveForeground(s.slots);
    hide ReserveForeground;
    var f := NextFile(s.work, j);
    var s1 := s.(slots := z, work := StartFile(s.work, j));
    SameWork(s.work, s.work);
    if x.Some? {
      StoreFailedStep(s1, f, x.value);
      JobsKeptTrans(s.work, s1.work, StoreFailed(s1, f, x.value).work);
      StartedLog(s.work, j);
    }
  }

  lemma StartedLog(w: Work, j: JobId)
    requires j < |w.jobs|
    ensures StartFile(w, j).log == w.log
  {
  }
}
