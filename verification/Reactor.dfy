/** The I/O reactor of py_kvcache/reactor.py as a state machine: one function per helper, one event per
    completion, intake or scheduling step. Results of foreign calls are parameters of the events.
    The reactor object that carries the operations out in place is in ReactorObject. */
module Reactor {
  import opened Outcomes
  import opened OrderedKeys
  import opened ReactorState
  import opened ReactorSlots
  import SC = StagingCache

  // ---------- Jobs and files ----------

  function JobAfter(j: Job, ok: bool): Job {
    var j1 := j.(inflight := j.inflight - 1, done := if ok then j.done + 1 else j.done);
    if j1.futureSet then j1
    else if !ok then j1.(failed := true, futureSet := true, outcomes := j1.outcomes + [Failed])
    else if j1.done == |j1.hashes| then j1.(futureSet := true, outcomes := j1.outcomes + [Succeeded])
    else j1
  }

  /** File `f` has ended: the first failure fails the job, the last success completes it. */
  function FileTerminal(w: Work, f: FileRef, ok: bool): Work {
    if f.job >= |w.jobs| then w
    else w.(jobs := w.jobs[f.job := JobAfter(w.jobs[f.job], ok)], log := w.log + [FileEnd(f, ok)])
  }

  predicate Unfinished(w: Work, j: JobId) {
    j < |w.jobs| && w.jobs[j].next < |w.jobs[j].hashes|
  }

  function NextFile(w: Work, j: JobId): FileRef
    requires Unfinished(w, j)
  {
    FileRef(j, w.jobs[j].next, w.jobs[j].hashes[w.jobs[j].next])
  }

  /** The next file, found through the table of jobs. */
  function FileRefOf(jobs: seq<Job>, j: JobId): FileRef
    requires j < |jobs| && jobs[j].next < |jobs[j].hashes|
  {
    FileRef(j, jobs[j].next, jobs[j].hashes[jobs[j].next])
  }

  /** The job's next file is under way. */
  function StartFile(w: Work, j: JobId): Work
    requires j < |w.jobs|
  {
    w.(jobs := w.jobs[j := w.jobs[j].(next := w.jobs[j].next + 1, inflight := w.jobs[j].inflight + 1)])
  }

  function NewJob(isStore: bool, r: ReqId, hs: seq<Hash>): Job {
    Job(isStore, r, hs, 0, 0, 0, false, false, [])
  }

  function Activate(w: Work, j: Job): Work {
    w.(jobs := w.jobs + [j], active := w.active + [|w.jobs|])
  }

  /** A declined load is answered at once and never becomes active. */
  function Decline(w: Work, r: ReqId, hs: seq<Hash>): Work {
    w.(jobs := w.jobs + [NewJob(false, r, hs).(futureSet := true, outcomes := [Declined])])
  }

  predicate Drained(j: Job) {
    j.inflight == 0 && (j.next >= |j.hashes| || j.failed)
  }

  predicate Finished(w: Work, j: JobId) {
    j < |w.jobs| && Drained(w.jobs[j]) && w.jobs[j].futureSet
  }

  function Remaining(w: Work, active: seq<JobId>): seq<JobId> {
    if active == [] then []
    else Remaining(w, active[..|active| - 1]) + if Finished(w, active[|active| - 1]) then [] else [active[|active| - 1]]
  }

  function RequestOf(w: Work, f: FileRef): ReqId { if f.job < |w.jobs| then w.jobs[f.job].reqId else 0 }

  // ---------- The ring ----------

  function Submit(g: Ring, op: Op): Ring {
    g.(inflight := g.inflight[g.nextUd := op], nextUd := g.nextUd + 1)
  }

  /** A submission that was refused only uses up its number. */
  function Refused(g: Ring): Ring {
    g.(nextUd := g.nextUd + 1)
  }

  function AsyncClose(g: Ring, queued: bool): Ring {
    if queued then Submit(g, Close) else Refused(g)
  }

  function QueueLoadCopy(g: Ring, f: FileRef, x: Slot, source: Source): Ring {
    g.(copyReady := g.copyReady + [LoadCopy(f, x, source)])
  }

  function AddData(g: Ring, n: int): Ring { g.(dataInflight := g.dataInflight + n) }

  function AddOpen(g: Ring, n: int): Ring { g.(openInflight := g.openInflight + n) }

  // ---------- Preload demand ----------

  function InflightAdd(d: Demand, h: Hash): Demand {
    d.(inflightHashes := Raise(d.inflightHashes, h), inflightTotal := d.inflightTotal + 1)
  }

  function InflightRemove(d: Demand, h: Hash): Demand {
    if Count(d.inflightHashes, h) <= 0 then d
    else d.(inflightHashes := Lower(d.inflightHashes, h), inflightTotal := d.inflightTotal - 1)
  }

  predicate HasInflight(d: Demand, h: Hash) { Count(d.inflightHashes, h) > 0 }

  function PendingPush(d: Demand, info: Info): Demand {
    d.(pending := d.pending + [info], pendingCount := Raise(d.pendingCount, info.hash))
  }

  function PendingPushAll(d: Demand, infos: seq<Info>): Demand {
    if infos == [] then d else PendingPush(PendingPushAll(d, infos[..|infos| - 1]), infos[|infos| - 1])
  }

  /** The oldest pending entry leaves the queue. */
  function PendingPop(d: Demand): Demand
    requires d.pending != []
  {
    d.(pending := d.pending[1..], pendingCount := Lower(d.pendingCount, d.pending[0].hash))
  }

  /** Marks one pending entry of the hash as no longer wanted. */
  function CancelOnePending(d: Demand, h: Hash): Demand {
    if Count(d.pendingCount, h) - Count(d.pendingCancel, h) <= 0 then d else d.(pendingCancel := Raise(d.pendingCancel, h))
  }

  function DropCancelled(d: Demand): Demand
    requires d.pending != []
  {
    PendingPop(d.(pendingCancel := Lower(d.pendingCancel, d.pending[0].hash)))
  }

  /** Parks a demand until the stores of its block have finished. */
  function BlockOnWrite(d: Demand, h: Hash, infos: seq<Info>): Demand {
    d.(blocked := d.blocked[h := (if h in d.blocked then d.blocked[h] else []) + infos])
  }

  function ForgetMissing(d: Demand, h: Hash): Demand {
    d.(missing := d.missing - {h}, missingOrder := Without(d.missingOrder, h))
  }

  function ForgetAllMissing(d: Demand, hs: seq<Hash>): Demand {
    if hs == [] then d else ForgetMissing(ForgetAllMissing(d, hs[..|hs| - 1]), hs[|hs| - 1])
  }

  function TrimMissing(d: Demand): Demand
    decreases |d.missingOrder|
  {
    if |d.missingOrder| > MAX_KNOWN_MISSING then
      TrimMissing(d.(missing := d.missing - {d.missingOrder[0]}, missingOrder := d.missingOrder[1..]))
    else d
  }

  function AddMissing(d: Demand, info: Info): Demand {
    var h := info.hash;
    d.(missing := d.missing[h := (if h in d.missing then d.missing[h] else []) + [info]],
       missingOrder := MoveToEnd(d.missingOrder, h))
  }

  /** Remembers that the block's file does not exist. */
  function RememberMissing(d: Demand, info: Info): Demand {
    TrimMissing(AddMissing(d, info))
  }

  /** A preload's file does not exist and no load waits for it. */
  function PreloadMissed(d: Demand, info: Info): Demand {
    if info.hash in d.storeInflight then BlockOnWrite(d, info.hash, [info]) else RememberMissing(d, info)
  }

  function NotOf(infos: seq<Info>, r: ReqId): seq<Info> {
    if infos == [] then []
    else NotOf(infos[..|infos| - 1], r) + if infos[|infos| - 1].reqId == r then [] else [infos[|infos| - 1]]
  }

  predicate HasAnySharedState(z: Slots, d: Demand, h: Hash) {
    || Claimable(z, h).Some?
    || HasInflight(d, h)
    || Count(d.pendingCount, h) > 0
    || h in d.blocked
    || h in d.missing
  }

  predicate PreloadHasCopy(s: State, h: Hash) {
    || (s.Cfg().hasCache && h in s.slots.cache.slots)
    || HasInflight(s.demand, h)
    || (if s.Cfg().sharePreload then Claimable(s.slots, h).Some? else HasPrivateCopy(s.slots, h))
  }

  // ---------- Waiting files ----------

  /** Position of the first file waiting for the hash; past the end if none does. */
  function WaiterIndex(ws: seq<FileRef>, h: Hash): (k: nat)
    ensures k <= |ws|
    ensures k < |ws| ==> ws[k].hash == h
    ensures forall i :: 0 <= i < k ==> ws[i].hash != h
  {
    if ws == [] || ws[0].hash == h then 0
    else
      var k := WaiterIndex(ws[1..], h);
      assert forall i :: 1 <= i < k + 1 ==> ws[i] == ws[1..][i - 1];
      k + 1
  }

  predicate HasWaiter(s: State, h: Hash) { WaiterIndex(s.waiters, h) < |s.waiters| }

  function WaiterCount(ws: seq<FileRef>, h: Hash): nat {
    if ws == [] then 0 else WaiterCount(ws[..|ws| - 1], h) + if ws[|ws| - 1].hash == h then 1 else 0
  }

  function PopWaiter(s: State, h: Hash): (State, Option<FileRef>) {
    var k := WaiterIndex(s.waiters, h);
    if k == |s.waiters| then (s, None) else (s.(waiters := RemoveAt(s.waiters, k)), Some(s.waiters[k]))
  }

  /** Fails every file waiting for the hash. */
  function FailWaiters(s: State, h: Hash): State
    decreases |s.waiters|
  {
    var (s', f) := PopWaiter(s, h);
    if f.None? then s else FailWaiters(s'.(work := FileTerminal(s'.work, f.value, false)), h)
  }

  /** Fails the first file waiting for the hash, if there is one. */
  function FailOneWaiter(s: State, h: Hash): State {
    var (s', f) := PopWaiter(s, h);
    if f.None? then s else s'.(work := FileTerminal(s'.work, f.value, false))
  }

  /** Popping a waiting file changes the queue of waiting files only. */
  lemma PopWaiterIs(s: State, h: Hash)
    ensures var (s', f) := PopWaiter(s, h);
      s' == s.(waiters := s'.waiters) && (f.None? ==> s' == s) && (f.None? <==> !HasWaiter(s, h))
  {
  }

  lemma FailAllIs(s: State, h: Hash)
    ensures var (s', f) := PopWaiter(s, h);
      FailWaiters(s, h) == if f.None? then s else FailWaiters(s.(waiters := s'.waiters, work := FileTerminal(s.work, f.value, false)), h)
    ensures var (s', f) := PopWaiter(s, h); f.Some? ==> |s'.waiters| < |s.waiters|
  {
    hide FileTerminal;
  }

  lemma FailOneIs(s: State, h: Hash)
    ensures var (s', f) := PopWaiter(s, h);
      FailOneWaiter(s, h) == if f.None? then s else s.(waiters := s'.waiters, work := FileTerminal(s.work, f.value, false))
  {
    hide FileTerminal;
  }

  /** Failing every waiting file does nothing when there is none. */
  lemma FailedAnyIs(s: State, h: Hash)
    ensures HasWaiter(s, h) <==> WaiterIndex(s.waiters, h) < |s.waiters|
    ensures !HasWaiter(s, h) ==> FailWaiters(s, h) == s && FailOneWaiter(s, h) == s
  {
    hide FileTerminal;
  }

  // ---------- Settling copies and stores ----------

  /** A load copy no longer needs its slot. */
  function SettleLoadSlot(z: Slots, c: LoadCopy): Slots {
    match c.source
    case Cached => z.(cache := SC.Unpin(z.cache, c.file.hash))
    case Owned => ReleaseOrCache(z, c.file.hash, c.slot)
    case Shared => MaybeReleaseShared(AddCopies(z, c.slot, -1), c.slot)
  }

  /** The copies are over, well or badly: slots settle and files end, in order. */
  function SettleAll(s: State, cs: seq<LoadCopy>, ok: bool): State {
    if cs == [] then s
    else
      var s1, c := SettleAll(s, cs[..|cs| - 1], ok), cs[|cs| - 1];
      s1.(slots := SettleLoadSlot(s1.slots, c), work := FileTerminal(s1.work, c.file, ok))
  }

  lemma SettleNone(s: State, ok: bool)
    ensures SettleAll(s, [], ok) == s
  {
  }

  lemma SettleNext(s: State, cs: seq<LoadCopy>, i: nat, ok: bool)
    requires i < |cs|
    ensures var s1 := SettleAll(s, cs[..i], ok);
      SettleAll(s, cs[..i + 1], ok) == s1.(slots := SettleLoadSlot(s1.slots, cs[i]), work := FileTerminal(s1.work, cs[i].file, ok))
  {
    hide SettleLoadSlot, FileTerminal;
    assert cs[..i + 1][..i] == cs[..i];
  }

  /** One store of the block has ended; the last one wakes the demand parked on it, if it succeeded. */
  function ReleaseStoreInflight(s: State, h: Hash, ok: bool): State {
    var d := s.demand;
    if Count(d.storeInflight, h) - 1 > 0 then s.(demand := d.(storeInflight := Lower(d.storeInflight, h)))
    else
      var infos := if h in d.blocked then d.blocked[h] else [];
      var d1 := d.(storeInflight := Lower(d.storeInflight, h), blocked := d.blocked - {h});
      if infos == [] || !ok then s.(demand := d1) else WakeParked(s.(demand := d1), h, infos)
  }

  /** A successful store's block is in the cache, or the demand parked on the store is queued again: all of
      it, or with shared preloading one entry for all. */
  function WakeParked(s: State, h: Hash, infos: seq<Info>): State
    requires infos != []
  {
    if s.Cfg().hasCache && h in s.slots.cache.slots then
      s.(slots := if s.Cfg().sharePreload then ForgetDemand(s.slots, h) else s.slots)
    else if s.Cfg().sharePreload then s.(demand := PendingPush(s.demand, infos[0]))
    else s.(demand := PendingPushAll(s.demand, infos))
  }

  /** A store's file has failed before its write could complete. */
  function StoreFailed(s: State, f: FileRef, x: Slot): State {
    ReleaseStoreInflight(s.(slots := Release(s.slots, x), work := FileTerminal(s.work, f, false)), f.hash, false)
  }

  // ---------- Intake ----------

  function IntakeDemand(s: State, r: ReqId, h: Hash): State {
    var z, d := s.slots, s.demand;
    if z.cfg.hasCache && h in z.cache.slots then s
    else if (r, h) in z.owned then s
    else
      var z1 := z.(owned := Suffix(z.owned + [(r, h)], MAX_PRELOAD_OWNED));
      if z.cfg.sharePreload then
        var z2 := z1.(refcount := Raise(z1.refcount, h));
        s.(slots := z2, demand := if HasAnySharedState(z2, d, h) then d else PendingPush(d, Info(h, r)))
      else
        s.(slots := z1, demand := if h in d.missing then AddMissing(d, Info(h, r)) else PendingPush(d, Info(h, r)))
  }

  function IntakePreload(s: State, r: ReqId, hs: seq<Hash>): State {
    if hs == [] then s else IntakeDemand(IntakePreload(s, r, hs[..|hs| - 1]), r, hs[|hs| - 1])
  }

  function IntakeLoad(s: State, r: ReqId, hs: seq<Hash>, declined: bool): State {
    if declined then s.(work := Decline(s.work, r, hs))
    else s.(demand := ForgetAllMissing(s.demand, hs), work := Activate(s.work, NewJob(false, r, hs)))
  }

  /** The demand that a store of the block will have to wake. */
  function Rearm(d: Demand, refcount: map<Hash, int>, share: bool, producer: ReqId, h: Hash): seq<Info> {
    var missed := if h in d.missing then d.missing[h] else [];
    if share then (if Count(refcount, h) > 0 then missed else []) else NotOf(missed, producer)
  }

  /** The demand once a store of the block is announced: what was known to be missing, apart from the
      producer's own demand, waits for it. */
  function Announced(d: Demand, refcount: map<Hash, int>, share: bool, producer: ReqId, h: Hash): Demand {
    var d1 := ForgetMissing(d, h);
    var rearm := Rearm(d, refcount, share, producer, h);
    var d2 := if rearm == [] then d1 else BlockOnWrite(d1, h, rearm);
    d2.(storeInflight := Raise(d2.storeInflight, h))
  }

  /** A store of the block is coming: its producer no longer wants it, other demand waits for it. */
  function AnnounceStore(s: State, producer: ReqId, h: Hash): State {
    var z := if s.Cfg().sharePreload then Decref(s.slots, producer, h) else s.slots;
    s.(slots := z, demand := Announced(s.demand, z.refcount, s.Cfg().sharePreload, producer, h))
  }

  function AnnounceStores(s: State, producer: ReqId, hs: seq<Hash>): State {
    if hs == [] then s else AnnounceStore(AnnounceStores(s, producer, hs[..|hs| - 1]), producer, hs[|hs| - 1])
  }

  function IntakeStore(s: State, r: ReqId, hs: seq<Hash>): State {
    var s1 := AnnounceStores(s, r, hs);
    s1.(work := Activate(s1.work, NewJob(true, r, hs)))
  }

  // ---------- Submitting work ----------

  predicate CanOpen(s: State) {
    s.ring.openInflight + |s.ring.readyLoad| + |s.ring.readyPreload| < s.Cfg().openLookahead
  }

  predicate HasDataBudget(s: State) { s.ring.dataInflight < s.Cfg().iodepth }

  predicate PreloadSlotsAvailable(s: State) {
    s.slots.cachedTotal + s.demand.inflightTotal < s.Cfg().MaxPreloadSlots()
  }

  predicate ForegroundOp(w: Work, op: Op) {
    match op
    case OpenLoad(f) => f.job < |w.jobs| && !w.jobs[f.job].isStore
    case ReadLoad(f, _) => f.job < |w.jobs| && !w.jobs[f.job].isStore
    case _ => false
  }

  predicate WantsDisk(s: State, j: JobId) {
    && Unfinished(s.work, j) && !s.work.jobs[j].isStore && !s.work.jobs[j].failed && !s.work.jobs[j].futureSet
    && !PreloadHasCopy(s, NextFile(s.work, j).hash)
  }

  /** A load is using, or is about to use, the disk. */
  predicate RealLoadPressure(s: State) {
    || s.ring.readyLoad != []
    || (exists ud | ud in s.ring.inflight.Keys :: ForegroundOp(s.work, s.ring.inflight[ud]))
    || (exists j | j in s.work.active :: WantsDisk(s, j))
  }

  function SubmitOpenRead(s: State, f: FileRef, queued: bool): State {
    if queued then s.(ring := Submit(AddOpen(s.ring, 1), OpenLoad(f)))
    else s.(ring := Refused(s.ring), work := FileTerminal(s.work, f, false))
  }

  function SubmitOpenPreload(s: State, info: Info, queued: bool): State {
    if queued then s.(ring := Submit(AddOpen(s.ring, 1), OpenPreload(info)), demand := InflightAdd(s.demand, info.hash))
    else s.(ring := Refused(s.ring))
  }

  function SubmitReadLoad(s: State, f: FileRef, x: Slot, queued: bool, closed: bool): State {
    if queued then s.(ring := Submit(AddData(s.ring, 1), ReadLoad(f, x)), memory := s.memory - {x})
    else
      s.(ring := AsyncClose(Refused(s.ring), closed), slots := Release(s.slots, x), work := FileTerminal(s.work, f, false))
  }

  function SubmitReadPreload(s: State, info: Info, x: Slot, queued: bool, closed: bool): State {
    if queued then s.(ring := Submit(AddData(s.ring, 1), ReadPreload(info, x)), memory := s.memory - {x})
    else
      var s1 := s.(ring := AsyncClose(Refused(s.ring), closed), slots := Release(s.slots, x),
                   demand := InflightRemove(s.demand, info.hash));
      if s.Cfg().sharePreload then FailWaiters(s1, info.hash) else FailOneWaiter(s1, info.hash)
  }

  lemma OpenPreloadKeepsWork()
    ensures forall s: State, info, queued :: SubmitOpenPreload(s, info, queued).work == s.work
  {
  }

  // ---------- Scheduling loads ----------

  predicate Schedulable(w: Work, j: JobId) {
    j in w.active && Unfinished(w, j) && !w.jobs[j].failed
  }

  function WaitForInflight(s: State, j: JobId): State
    requires Unfinished(s.work, j)
  {
    s.(work := StartFile(s.work, j), waiters := s.waiters + [NextFile(s.work, j)])
  }

  function CacheHit(s: State, j: JobId, x: Slot): State
    requires Unfinished(s.work, j)
  {
    var f := NextFile(s.work, j);
    s.(slots := s.slots.(cache := SC.Pin(s.slots.cache, f.hash)), work := StartFile(s.work, j),
       ring := QueueLoadCopy(s.ring, f, x, Cached))
  }

  function ClaimShared(s: State, j: JobId, x: Slot): State
    requires Unfinished(s.work, j)
  {
    var f := NextFile(s.work, j);
    s.(work := StartFile(s.work, j), ring := QueueLoadCopy(s.ring, f, x, Shared),
       slots := Decref(AddCopies(s.slots, x, 1), s.work.jobs[j].reqId, f.hash))
  }

  function ClaimPrivate(s: State, j: JobId): State
    requires Unfinished(s.work, j)
  {
    var f := NextFile(s.work, j);
    var (z, e) := PreloadPop(s.slots, f.hash);
    if e.None? then s
    else s.(slots := z, work := StartFile(s.work, j), ring := QueueLoadCopy(s.ring, f, e.value.slot, Owned))
  }

  function OpenForLoad(s: State, j: JobId, queued: bool): State
    requires Unfinished(s.work, j)
  {
    SubmitOpenRead(s.(work := StartFile(s.work, j)), NextFile(s.work, j), queued)
  }

  /** A load takes over a preload that is queued but not open: it opens it now and waits for it. */
  function PromotePending(s: State, j: JobId, queued: bool): State
    requires Unfinished(s.work, j)
  {
    var f := NextFile(s.work, j);
    var s1 := s.(demand := CancelOnePending(s.demand, f.hash));
    WaitForInflight(SubmitOpenPreload(s1, Info(f.hash, s.work.jobs[j].reqId), queued), j)
  }

  /** The load's next file would be promoted from the pending queue. */
  predicate Promotes(s: State, j: JobId)
    requires Unfinished(s.work, j)
  {
    var h := NextFile(s.work, j).hash;
    && !(s.Cfg().hasCache && h in s.slots.cache.slots)
    && s.Cfg().sharePreload && Claimable(s.slots, h).None? && !HasInflight(s.demand, h)
    && Count(s.demand.pendingCount, h) > 0 && CanOpen(s)
  }

  /** One file of a load with shared preloading. */
  function ScheduleSharedLoad(s: State, j: JobId, queued: bool): State
    requires Unfinished(s.work, j)
  {
    var h := NextFile(s.work, j).hash;
    var x := Claimable(s.slots, h);
    if x.Some? then ClaimShared(s, j, x.value)
    else if HasInflight(s.demand, h) then WaitForInflight(s, j)
    else if !CanOpen(s) then s
    else if Count(s.demand.pendingCount, h) > 0 then PromotePending(s, j, queued)
    else
      var s1 := OpenForLoad(s, j, queued);
      s1.(slots := Decref(s1.slots, s.work.jobs[j].reqId, h))
  }

  /** One file of a load with private preloading. */
  function SchedulePrivateLoad(s: State, j: JobId, queued: bool): State
    requires Unfinished(s.work, j)
  {
    var h := NextFile(s.work, j).hash;
    if HasPrivateCopy(s.slots, h) then ClaimPrivate(s, j)
    else if HasInflight(s.demand, h) && WaiterCount(s.waiters, h) < Count(s.demand.inflightHashes, h) then WaitForInflight(s, j)
    else if !CanOpen(s) then s
    else
      var s1 := OpenForLoad(s, j, queued);
      s1.(demand := CancelOnePending(s1.demand, h))
  }

  function ScheduleLoad(s: State, j: JobId, queued: bool): State
    requires Unfinished(s.work, j)
  {
    var h := NextFile(s.work, j).hash;
    var c := s.slots.cache;
    if s.Cfg().hasCache && h in c.slots then
      CacheHit(s.(slots := s.slots.(cache := SC.Get(c, h).0)), j, c.slots[h].slotIndex)
    else if s.Cfg().sharePreload then ScheduleSharedLoad(s, j, queued)
    else SchedulePrivateLoad(s, j, queued)
  }

  /** The next file has to be opened and no more files may be. */
  predicate LoadStalls(s: State, j: JobId)
    requires Unfinished(s.work, j)
  {
    var h := NextFile(s.work, j).hash;
    && !(s.Cfg().hasCache && h in s.slots.cache.slots)
    && (if s.Cfg().sharePreload then Claimable(s.slots, h).None? && !HasInflight(s.demand, h)
        else !HasPrivateCopy(s.slots, h) && !(HasInflight(s.demand, h) && WaiterCount(s.waiters, h) < Count(s.demand.inflightHashes, h)))
    && !CanOpen(s)
  }

  predicate SharedStalls(s: State, j: JobId)
    requires Unfinished(s.work, j)
  {
    var h := NextFile(s.work, j).hash;
    Claimable(s.slots, h).None? && !HasInflight(s.demand, h) && !CanOpen(s)
  }

  predicate PrivateStalls(s: State, j: JobId)
    requires Unfinished(s.work, j)
  {
    var h := NextFile(s.work, j).hash;
    && !HasPrivateCopy(s.slots, h) && !(HasInflight(s.demand, h) && WaiterCount(s.waiters, h) < Count(s.demand.inflightHashes, h))
    && !CanOpen(s)
  }

  lemma StallsIs(s: State, j: JobId)
    requires Unfinished(s.work, j)
    ensures LoadStalls(s, j) <==>
      && !(s.Cfg().hasCache && NextFile(s.work, j).hash in s.slots.cache.slots)
      && (if s.Cfg().sharePreload then SharedStalls(s, j) else PrivateStalls(s, j))
  {
  }

  /** Work that goes on with the same jobs, of which `j` has started one more file. */
  predicate OneMoreFile(w: Work, w': Work, j: JobId) {
    && w'.active == w.active && |w'.jobs| == |w.jobs| && j < |w.jobs|
    && w'.jobs[j].next == w.jobs[j].next + 1 && w'.jobs[j].hashes == w.jobs[j].hashes && w'.jobs[j].isStore == w.jobs[j].isStore
  }

  lemma StartedOne(w: Work, j: JobId)
    requires Unfinished(w, j)
    ensures OneMoreFile(w, StartFile(w, j), j)
    ensures forall f: FileRef, ok: bool :: OneMoreFile(w, FileTerminal(StartFile(w, j), f, ok), j)
  {
  }

  lemma LoadProgress(s: State, j: JobId, queued: bool)
    requires Unfinished(s.work, j)
    ensures LoadStalls(s, j) ==> ScheduleLoad(s, j, queued) == s
    ensures !LoadStalls(s, j) ==> OneMoreFile(s.work, ScheduleLoad(s, j, queued).work, j)
  {
    StartedOne(s.work, j);
    hide StartFile, FileTerminal, Decref, AddCopies, QueueLoadCopy, Claimable, HasInflight, SC.Get, SC.Pin, WaiterCount, InflightAdd,
      CancelOnePending, Submit, Refused, CanOpen, OneMoreFile;
  }

  // ---------- Scheduling stores, reads and preloads ----------

  function ScheduleStoreCopy(s: State, j: JobId, x: Slot, launched: bool): State
    requires Unfinished(s.work, j)
  {
    var f := NextFile(s.work, j);
    var s1 := s.(work := StartFile(s.work, j));
    if launched then
      s1.(ring := AddData(s.ring, 1).(pendingCopies := s.ring.pendingCopies + [StoreCopy(f, x)]), memory := s.memory - {x})
    else StoreFailed(s1, f, x)
  }

  function ScheduleStore(s: State, j: JobId, launched: bool): State
    requires Unfinished(s.work, j)
  {
    var (z, x) := ReserveForeground(s.slots);
    if x.None? then s.(slots := z) else ScheduleStoreCopy(s.(slots := z), j, x.value, launched)
  }

  function DrainLoadFd(s: State, queued: bool, closed: bool): State
    requires s.ring.readyLoad != []
  {
    var (z, x) := ReserveForeground(s.slots);
    if x.None? then s.(slots := z)
    else
      var s1 := s.(slots := z, ring := s.ring.(readyLoad := s.ring.readyLoad[1..]));
      SubmitReadLoad(s1, s.ring.readyLoad[0], x.value, queued, closed)
  }

  /** The oldest opened preload leaves its queue. */
  function PopReadyPreload(g: Ring): Ring
    requires g.readyPreload != []
  {
    g.(readyPreload := g.readyPreload[1..])
  }

  /** An opened preload no load waits for gives way: its demand is queued again and the file closed. */
  function YieldOpenFd(s: State, closed: bool): State
    requires s.ring.readyPreload != []
  {
    var info := s.ring.readyPreload[0];
    s.(ring := AsyncClose(PopReadyPreload(s.ring), closed), demand := PendingPush(InflightRemove(s.demand, info.hash), info))
  }

  /** Reads the oldest opened preload into the slot that was reserved, if one was. */
  function ReadPreloadFd(s: State, r: (Slots, Option<Slot>), queued: bool, closed: bool): State
    requires s.ring.readyPreload != []
  {
    if r.1.None? then s.(slots := r.0)
    else SubmitReadPreload(s.(slots := r.0, ring := PopReadyPreload(s.ring)), s.ring.readyPreload[0], r.1.value, queued, closed)
  }

  function DrainPreloadFd(s: State, queued: bool, closed: bool): State
    requires s.ring.readyPreload != []
  {
    if HasWaiter(s, s.ring.readyPreload[0].hash) then
      if !HasDataBudget(s) then s else ReadPreloadFd(s, ReserveForeground(s.slots), queued, closed)
    else if RealLoadPressure(s) then YieldOpenFd(s, closed)
    else if !HasDataBudget(s) then s
    else ReadPreloadFd(s, ReservePreload(s.slots), queued, closed)
  }

  lemma LoadFdShorter(s: State, queued: bool, closed: bool)
    requires s.ring.readyLoad != []
    ensures ReserveForeground(s.slots).1.Some? ==> |DrainLoadFd(s, queued, closed).ring.readyLoad| < |s.ring.readyLoad|
  {
    hide ReserveForeground, Release, FileTerminal;
  }

  lemma LoadFdKeepsJobs(s: State, queued: bool, closed: bool)
    requires s.ring.readyLoad != []
    ensures var w := DrainLoadFd(s, queued, closed).work; w.active == s.work.active && |w.jobs| == |s.work.jobs|
  {
    hide ReserveForeground, Release, JobAfter;
  }

  lemma YieldShorter(s: State, closed: bool)
    requires s.ring.readyPreload != []
    ensures |YieldOpenFd(s, closed).ring.readyPreload| < |s.ring.readyPreload|
  {
    hide PendingPush, InflightRemove;
  }

  lemma {:induction false} FailAllKeepsRing(s: State, h: Hash)
    ensures FailWaiters(s, h).ring == s.ring && FailOneWaiter(s, h).ring == s.ring
    decreases |s.waiters|
  {
    hide FailWaiters, FileTerminal, PopWaiter;
    FailAllIs(s, h);
    FailOneIs(s, h);
    var (s', f) := PopWaiter(s, h);
    if f.Some? { FailAllKeepsRing(s.(waiters := s'.waiters, work := FileTerminal(s.work, f.value, false)), h); }
  }

  lemma ReadShorter(s: State, r: (Slots, Option<Slot>), queued: bool, closed: bool)
    requires s.ring.readyPreload != []
    ensures r.1.Some? ==> |ReadPreloadFd(s, r, queued, closed).ring.readyPreload| < |s.ring.readyPreload|
  {
    hide FailWaiters, FailOneWaiter, InflightRemove, Release;
    if r.1.Some? && !queued {
      var s0, info := s.(slots := r.0, ring := PopReadyPreload(s.ring)), s.ring.readyPreload[0];
      FailAllKeepsRing(s0.(ring := AsyncClose(Refused(s0.ring), closed), slots := Release(s0.slots, r.1.value),
                           demand := InflightRemove(s0.demand, info.hash)), info.hash);
    }
  }

  lemma SpeculateShorter(s: State, queued: bool)
    requires s.demand.pending != []
    ensures |Speculate(s, queued).demand.pending| < |s.demand.pending|
  {
    hide SubmitOpenPreload, BlockOnWrite, PendingPop, DropCancelled;
    var d, info := s.demand, s.demand.pending[0];
    PopShorter(d);
    BlockKeepsPending(PendingPop(d), info);
    OpenKeepsPending(s.(demand := PendingPop(d)), info, queued);
  }

  lemma PopShorter(d: Demand)
    requires d.pending != []
    ensures |PendingPop(d).pending| < |d.pending| && |DropCancelled(d).pending| < |d.pending|
  {
    hide Lower;
  }

  lemma BlockKeepsPending(d: Demand, info: Info)
    ensures BlockOnWrite(d, info.hash, [info]).pending == d.pending
  {
  }

  lemma OpenKeepsPending(s: State, info: Info, queued: bool)
    ensures SubmitOpenPreload(s, info, queued).demand.pending == s.demand.pending
  {
    hide Raise;
  }

  /** Another pending entry may be handled, as long as no load wants the disk. */
  predicate MaySpeculate(s: State) {
    s.demand.pending != [] && CanOpen(s) && PreloadSlotsAvailable(s)
  }

  function Speculate(s: State, queued: bool): State
    requires s.demand.pending != []
  {
    var d, info := s.demand, s.demand.pending[0];
    if Count(d.pendingCancel, info.hash) > 0 then s.(demand := DropCancelled(d))
    else if info.hash in d.storeInflight then s.(demand := BlockOnWrite(PendingPop(d), info.hash, [info]))
    else SubmitOpenPreload(s.(demand := PendingPop(d)), info, queued)
  }

  /** Handling a pending entry does not make a load want the disk. */
  lemma NoPressureFromPreloads(s: State, queued: bool)
    requires MaySpeculate(s) && !RealLoadPressure(s)
    ensures !RealLoadPressure(Speculate(s, queued))
  {
    hide PreloadHasCopy, CanOpen, PreloadSlotsAvailable;
    var s' := Speculate(s, queued);
    SpeculatedOps(s, queued);
    forall h: Hash | PreloadHasCopy(s, h) ensures PreloadHasCopy(s', h) { StillHasCopy(s, queued, h); }
    assert forall j :: j in s.work.active ==> !WantsDisk(s, j);
  }

  lemma SpeculatedOps(s: State, queued: bool)
    requires s.demand.pending != []
    ensures var s' := Speculate(s, queued);
      && s'.work == s.work && s'.ring.readyLoad == s.ring.readyLoad
      && (forall ud :: ud in s'.ring.inflight && ForegroundOp(s.work, s'.ring.inflight[ud]) ==> ud in s.ring.inflight && s'.ring.inflight[ud] == s.ring.inflight[ud])
  {
    hide PendingPop, DropCancelled, BlockOnWrite, InflightAdd;
  }

  lemma StillHasCopy(s: State, queued: bool, h: Hash)
    requires s.demand.pending != [] && PreloadHasCopy(s, h)
    ensures PreloadHasCopy(Speculate(s, queued), h)
  {
    hide Claimable, HasPrivateCopy, Lower;
  }

  function FlushCopies(s: State, launched: bool): State {
    var g := s.ring.(copyReady := []);
    if launched then s.(ring := g.(pendingCopies := g.pendingCopies + [LoadBatch(s.ring.copyReady)]))
    else SettleAll(s.(ring := g), s.ring.copyReady, false)
  }

  // ---------- Completions ----------

  function StoreCopyDone(s: State, f: FileRef, x: Slot, tempOk: bool, queued: bool): State {
    if tempOk && queued then s.(ring := Submit(s.ring, Write(f, x)))
    else StoreFailed(s.(ring := AddData(if tempOk then Refused(s.ring) else s.ring, -1)), f, x)
  }

  /** A GPU copy is complete; a store goes on to write its file. */
  function CopyDone(s: State, k: nat, tempOk: bool, queued: bool): State
    requires k < |s.ring.pendingCopies|
  {
    var s1 := s.(ring := s.ring.(pendingCopies := RemoveAt(s.ring.pendingCopies, k)));
    match s.ring.pendingCopies[k]
    case StoreCopy(f, x) => StoreCopyDone(s1.(memory := s1.memory[x := f.hash]), f, x, tempOk, queued)
    case LoadBatch(members) => SettleAll(s1, members, true)
  }

  function PreloadOpenFailed(s: State, info: Info): State {
    var s1 := s.(demand := InflightRemove(s.demand, info.hash));
    if !HasWaiter(s1, info.hash) then s1.(demand := PreloadMissed(s1.demand, info))
    else if s.Cfg().sharePreload then FailWaiters(s1, info.hash)
    else FailOneWaiter(s1, info.hash)
  }

  function OpenLoadDone(s: State, f: FileRef, ok: bool): State {
    if ok then s.(ring := s.ring.(readyLoad := s.ring.readyLoad + [f])) else s.(work := FileTerminal(s.work, f, false))
  }

  function OpenPreloadDone(s: State, info: Info, ok: bool): State {
    if ok then s.(ring := s.ring.(readyPreload := s.ring.readyPreload + [info])) else PreloadOpenFailed(s, info)
  }

  function ReadLoadDone(s: State, f: FileRef, x: Slot, ok: bool): State {
    if ok then s.(memory := s.memory[x := f.hash], ring := QueueLoadCopy(s.ring, f, x, Owned))
    else s.(slots := Release(s.slots, x), work := FileTerminal(s.work, f, false))
  }

  /** A finished private read goes to the first waiting file, or is kept. */
  function PrivateDelivered(s: State, info: Info, x: Slot): State {
    var (s1, f) := PopWaiter(s, info.hash);
    if f.Some? then s1.(ring := QueueLoadCopy(s1.ring, f.value, x, Owned))
    else s1.(slots := PreloadPush(s1.slots, x, info))
  }

  function PrivateReadDone(s: State, info: Info, x: Slot, ok: bool): State {
    var s1 := s.(demand := InflightRemove(s.demand, info.hash));
    if ok then PrivateDelivered(s1.(memory := s1.memory[x := info.hash]), info, x)
    else FailOneWaiter(s1.(slots := Release(s1.slots, x)), info.hash)
  }

  /** Every file waiting for the hash copies from the shared slot, and its request's demand is met. */
  function ServeWaiters(s: State, h: Hash, x: Slot): State
    decreases |s.waiters|
  {
    var (s1, f) := PopWaiter(s, h);
    if f.None? then s
    else
      ServeWaiters(s1.(ring := QueueLoadCopy(s1.ring, f.value, x, Shared),
                       slots := Decref(AddCopies(s1.slots, x, 1), RequestOf(s.work, f.value), h)), h, x)
  }

  /** The first waiting file has its copy. */
  function Served(s: State, h: Hash, x: Slot): State {
    var (s1, f) := PopWaiter(s, h);
    if f.None? then s
    else s1.(ring := QueueLoadCopy(s1.ring, f.value, x, Shared), slots := Decref(AddCopies(s1.slots, x, 1), RequestOf(s.work, f.value), h))
  }

  lemma ServeIs(s: State, h: Hash, x: Slot)
    ensures ServeWaiters(s, h, x) == if HasWaiter(s, h) then ServeWaiters(Served(s, h, x), h, x) else s
    ensures HasWaiter(s, h) ==> |Served(s, h, x).waiters| < |s.waiters|
    ensures !HasWaiter(s, h) ==> Served(s, h, x) == s
  {
    hide Decref, AddCopies, QueueLoadCopy;
  }

  lemma ServedIs(s: State, h: Hash, x: Slot)
    ensures var (s1, f) := PopWaiter(s, h);
      Served(s, h, x) == if f.None? then s else
        s.(waiters := s1.waiters, ring := QueueLoadCopy(s.ring, f.value, x, Shared),
           slots := Decref(AddCopies(s.slots, x, 1), RequestOf(s.work, f.value), h))
  {
    hide Decref, AddCopies, QueueLoadCopy, RequestOf;
  }

  /** A shared read has filled its slot. */
  function Arrived(s: State, h: Hash, x: Slot): State {
    s.(memory := s.memory[x := h], slots := s.slots.(shared := s.slots.shared[x := SharedSlot(h, 0, false)]))
  }

  /** It serves the waiting files, then becomes claimable or goes. */
  function SharedDelivered(s: State, h: Hash, x: Slot): State {
    var s1 := ServeWaiters(Arrived(s, h, x), h, x);
    s1.(slots := KeepOrRelease(s1.slots, h, x))
  }

  function SharedReadDone(s: State, info: Info, x: Slot, ok: bool): State {
    var s1 := s.(demand := InflightRemove(s.demand, info.hash));
    if ok then SharedDelivered(s1, info.hash, x)
    else
      var s2 := FailWaiters(s1, info.hash);
      s2.(slots := Release(s2.slots, x))
  }

  function ReadPreloadDone(s: State, info: Info, x: Slot, ok: bool): State {
    if s.Cfg().sharePreload then SharedReadDone(s, info, x, ok) else PrivateReadDone(s, info, x, ok)
  }

  function WriteDone(s: State, f: FileRef, x: Slot, ok: bool): State {
    if ok then
      ReleaseStoreInflight(s.(slots := ReleaseOrCache(s.slots, f.hash, x), work := FileTerminal(s.work, f, true)), f.hash, true)
    else StoreFailed(s, f, x)
  }

  function Closing(s: State, closed: bool): State {
    s.(ring := AsyncClose(s.ring, closed))
  }

  /** An operation has left the ring with a result; `closed` says whether closing the file it read could
      be queued. */
  function OpDone(s: State, op: Op, ok: bool, closed: bool): State {
    match op
    case OpenLoad(f) => OpenLoadDone(s.(ring := AddOpen(s.ring, -1)), f, ok)
    case OpenPreload(info) => OpenPreloadDone(s.(ring := AddOpen(s.ring, -1)), info, ok)
    case ReadLoad(f, x) => Closing(ReadLoadDone(s.(ring := AddData(s.ring, -1)), f, x, ok), closed)
    case ReadPreload(info, x) => Closing(ReadPreloadDone(s.(ring := AddData(s.ring, -1)), info, x, ok), closed)
    case Write(f, x) => WriteDone(s.(ring := AddData(s.ring, -1)), f, x, ok)
    case Close => s
  }

  function OpCompletes(s: State, ud: nat, ok: bool, closed: bool): State
    requires ud in s.ring.inflight
  {
    OpDone(s.(ring := s.ring.(inflight := s.ring.inflight - {ud})), s.ring.inflight[ud], ok, closed)
  }

  lemma {:induction false} SettleAllKeepsRing(s: State, cs: seq<LoadCopy>, ok: bool)
    ensures SettleAll(s, cs, ok).ring == s.ring
    decreases |cs|
  {
    hide SettleLoadSlot, FileTerminal;
    if cs != [] { SettleAllKeepsRing(s, cs[..|cs| - 1], ok); }
  }

  lemma StoreFailedKeepsRing(s: State, f: FileRef, x: Slot)
    ensures StoreFailed(s, f, x).ring == s.ring
  {
    hide FileTerminal, Release, PendingPush, PendingPushAll, ForgetDemand;
  }

  lemma CopyDoneShorter(s: State, k: nat, tempOk: bool, queued: bool)
    requires k < |s.ring.pendingCopies|
    ensures |CopyDone(s, k, tempOk, queued).ring.pendingCopies| == |s.ring.pendingCopies| - 1
  {
    hide StoreFailed, SettleAll;
    var s1 := s.(ring := s.ring.(pendingCopies := RemoveAt(s.ring.pendingCopies, k)));
    match s.ring.pendingCopies[k]
    case LoadBatch(members) => SettleAllKeepsRing(s1, members, true);
    case StoreCopy(f, x) =>
      var s2 := s1.(memory := s1.memory[x := f.hash]);
      StoreFailedKeepsRing(s2.(ring := AddData(if tempOk then Refused(s2.ring) else s2.ring, -1)), f, x);
  }

  /** The next file of a store is started if a slot can be had; otherwise no job changes. */
  lemma StoreProgress(s: State, j: JobId, launched: bool)
    requires Unfinished(s.work, j)
    ensures ReserveForeground(s.slots).1.Some? ==> OneMoreFile(s.work, ScheduleStore(s, j, launched).work, j)
    ensures ReserveForeground(s.slots).1.None? ==> ScheduleStore(s, j, launched).work == s.work
  {
    StartedOne(s.work, j);
    hide ReserveForeground, StartFile, FileTerminal, Release, PendingPush, PendingPushAll, ForgetDemand, OneMoreFile;
  }

  // ---------- Runs ----------

  datatype Event =
    | PreloadRequest(r: ReqId, hashes: seq<Hash>)
    | LoadRequest(r: ReqId, hashes: seq<Hash>, declined: bool)
    | StoreRequest(r: ReqId, hashes: seq<Hash>)
    | CopyCompletion(k: nat, tempOk: bool, queued: bool)
    | OpCompletion(ud: nat, ok: bool, closed: bool)
    | LoadNext(j: JobId, queued: bool)
    | StoreNext(j: JobId, launched: bool)
    | ReadLoadFd(queued: bool, closed: bool)
    | PreloadFd(queued: bool, closed: bool)
    | CancelledPending
    | SpeculativeOpen(queued: bool)
    | Flush(launched: bool)
    | Finish

  /** The event can happen. Jobs have at least one file; a preload that is promoted for a load can be
      opened. */
  predicate Enabled(s: State, e: Event) {
    match e
    case PreloadRequest(_, _) => true
    case LoadRequest(_, hs, _) => hs != []
    case StoreRequest(_, hs) => hs != []
    case CopyCompletion(k, _, _) => k < |s.ring.pendingCopies|
    case OpCompletion(ud, _, _) => ud in s.ring.inflight
    case LoadNext(j, queued) => Schedulable(s.work, j) && !s.work.jobs[j].isStore && (Promotes(s, j) ==> queued)
    case StoreNext(j, _) => Schedulable(s.work, j) && s.work.jobs[j].isStore && HasDataBudget(s)
    case ReadLoadFd(_, _) => s.ring.readyLoad != [] && HasDataBudget(s)
    case PreloadFd(_, _) => s.ring.readyPreload != []
    case CancelledPending => s.demand.pending != [] && Count(s.demand.pendingCancel, s.demand.pending[0].hash) > 0
    case SpeculativeOpen(_) => MaySpeculate(s) && !RealLoadPressure(s)
    case Flush(_) => s.ring.copyReady != []
    case Finish => true
  }

  function Step(s: State, e: Event): State
    requires Enabled(s, e)
  {
    match e
    case PreloadRequest(r, hs) => IntakePreload(s, r, hs)
    case LoadRequest(r, hs, declined) => IntakeLoad(s, r, hs, declined)
    case StoreRequest(r, hs) => IntakeStore(s, r, hs)
    case CopyCompletion(k, tempOk, queued) => CopyDone(s, k, tempOk, queued)
    case OpCompletion(ud, ok, closed) => OpCompletes(s, ud, ok, closed)
    case LoadNext(j, queued) => ScheduleLoad(s, j, queued)
    case StoreNext(j, launched) => ScheduleStore(s, j, launched)
    case ReadLoadFd(queued, closed) => DrainLoadFd(s, queued, closed)
    case PreloadFd(queued, closed) => DrainPreloadFd(s, queued, closed)
    case CancelledPending => s.(demand := DropCancelled(s.demand))
    case SpeculativeOpen(queued) => Speculate(s, queued)
    case Flush(launched) => FlushCopies(s, launched)
    case Finish => s.(work := s.work.(active := Remaining(s.work, s.work.active)))
  }

  lemma SpeculationNow(s: State, queued: bool)
    requires MaySpeculate(s) && !RealLoadPressure(s)
    ensures Enabled(s, SpeculativeOpen(queued)) && Step(s, SpeculativeOpen(queued)) == Speculate(s, queued)
  {
    hide CanOpen, PreloadSlotsAvailable, RealLoadPressure, Speculate;
  }

  /** Each event of the list can happen when its turn comes. */
  predicate IsRun(s: State, es: seq<Event>)
    decreases |es|, 0
  {
    es == [] || (IsRun(s, es[..|es| - 1]) && Enabled(After(s, es[..|es| - 1]), es[|es| - 1]))
  }

  /** The state after the events. */
  function After(s: State, es: seq<Event>): State
    requires IsRun(s, es)
    decreases |es|, 1
  {
    if es == [] then s else Step(After(s, es[..|es| - 1]), es[|es| - 1])
  }

  lemma RunNothing(s: State)
    ensures IsRun(s, []) && After(s, []) == s
  {
  }

  lemma RunAppend(s: State, es: seq<Event>, e: Event)
    requires IsRun(s, es) && Enabled(After(s, es), e)
    ensures IsRun(s, es + [e]) && After(s, es + [e]) == Step(After(s, es), e)
  {
    hide Step, Enabled;
    assert (es + [e])[..|es|] == es;
  }

  lemma RunLast(s: State, es: seq<Event>)
    requires IsRun(s, es) && es != []
    ensures var front, e := es[..|es| - 1], es[|es| - 1];
      IsRun(s, front) && Enabled(After(s, front), e) && After(s, es) == Step(After(s, front), e)
  {
    hide Step, Enabled;
  }

  lemma {:induction false} RunConcat(s: State, a: seq<Event>, b: seq<Event>)
    requires IsRun(s, a) && IsRun(After(s, a), b)
    ensures IsRun(s, a + b) && After(s, a + b) == After(After(s, a), b)
    decreases |b|
  {
    hide Step, Enabled, IsRun, After;
    RunNothing(After(s, a));
    if b == [] {
      assert a + b == a;
    } else {
      var front, e := b[..|b| - 1], b[|b| - 1];
      RunLast(After(s, a), b);
      RunConcat(s, a, front);
      RunAppend(s, a + front, e);
      assert a + front + [e] == a + b;
    }
  }

  /** A reactor that has just been built. */
  function Initial(cfg: Config, cache: SC.Cache): State {
    State(Work([], [], []), Ring(map[], 1, 0, 0, [], [], [], []),
          Slots(cfg, seq(cfg.slotCount, i => i), cache, [], 0, map[], [], [], map[]),
          Demand([], map[], map[], map[], 0, map[], map[], map[], []), [], map[])
  }
}
