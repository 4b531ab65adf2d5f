/** What becomes of files, jobs, announced stores and reservations, in every state that a run reaches. */
module ReactorOutcomes {
  import opened Outcomes
  import opened OrderedKeys
  import opened ReactorState
  import opened ReactorSlots
  import opened Reactor
  import opened ReactorTokens
  import opened ReactorSlotSafety
  import opened ReactorFileSafety
  import opened ReactorDemandSafety
  import opened ReactorMoves
  import opened ReactorDemandMoves
  import opened ReactorSafety
  import opened ReactorRuns
  import opened ReactorTheorems
  import opened ReactorGuarantees
  import SC = StagingCache

  // ---------- Files end once ----------

  function EndOf(f: FileRef): FileEnd -> bool { (e: FileEnd) => e.file == f }

  function EndOfJob(j: JobId, ok: bool): FileEnd -> bool { (e: FileEnd) => e.file.job == j && e.ok == ok }

  /** The places where file `f` is under way: operations in flight, open files, copies and waiting files. */
  function PlacesOf(s: State, f: FileRef): nat {
    RingCount(s.ring, OpOf(f), IsFile(f), Never(), StoreOf(f), CopyOf(f)) + CountIf(s.waiters, IsFile(f))
  }

  function PlacesOfJob(s: State, j: JobId): nat {
    RingCount(s.ring, OpOfJob(j), FileOfJob(j), Never(), StoreOfJob(j), CopyOfJob(j)) + CountIf(s.waiters, FileOfJob(j))
  }

  lemma WaitersHave(ws: seq<FileRef>, k: Token, p: FileRef -> bool)
    requires (k.TFile? || k.TJob?) && forall f: FileRef :: FileHas(f, k) == One(p(f))
    ensures Flat(ws, WaitTokens)[k] == CountIf(ws, p)
  {
    hide FileTokens, FileHas, Flat, One, CountIf, WaitTokens;
    forall f: FileRef ensures WaitTokens(f)[k] == One(p(f)) { WaitHas(f, k); }
    FlatCounts(ws, WaitTokens, k, p);
  }

  lemma WaitHas(f: FileRef, k: Token)
    requires k.TFile? || k.TJob?
    ensures WaitTokens(f)[k] == FileHas(f, k)
  {
    hide FileTokens, FileHas;
    FileHasIs(f, k);
  }

  lemma PlacesAre(s: State, f: FileRef)
    ensures Total(s)[TFile(f)] == PlacesOf(s, f)
  {
    hide Total, RingTotal, RingCount, CountIf, Picks, Flat, WaitTokens;
    PicksFile(f);
    RingCounts(s.ring, TFile(f), OpOf(f), IsFile(f), Never(), StoreOf(f), CopyOf(f));
    TotalOutsideRing(s, TFile(f));
    WaitersHave(s.waiters, TFile(f), IsFile(f));
  }

  lemma PlacesOfJobAre(s: State, j: JobId)
    ensures Total(s)[TJob(j)] == PlacesOfJob(s, j)
  {
    hide Total, RingTotal, RingCount, CountIf, Picks, Flat, WaitTokens;
    PicksJob(j);
    RingCounts(s.ring, TJob(j), OpOfJob(j), FileOfJob(j), Never(), StoreOfJob(j), CopyOfJob(j));
    TotalOutsideRing(s, TJob(j));
    WaitersHave(s.waiters, TJob(j), FileOfJob(j));
  }

  /** The token of an ended file. */
  ghost predicate Ended(k: Token) { k.TDone? || k.TFail? || k.TOk? || k.TBad? }

  lemma RingHasNoEnds(g: Ring, k: Token)
    requires Ended(k)
    ensures RingTotal(g)[k] == 0
  {
    hide Flat, Sum, OpTokens, FileTokens, ReadyPreloadTokens, CopyTokens, PendingCopyTokens;
    forall ud: nat, op: Op ensures OpTokens(ud, op)[k] == 0 { OpHasIs(ud, op, k); }
    SumAvoids(g.inflight, OpTokens, k);
    forall f: FileRef ensures FileTokens(f)[k] == 0 { FileHasIs(f, k); }
    FlatAvoids(g.readyLoad, FileTokens, k);
    forall i: Info ensures ReadyPreloadTokens(i)[k] == 0 { InfoHasIs(i, k); }
    FlatAvoids(g.readyPreload, ReadyPreloadTokens, k);
    forall c: LoadCopy ensures CopyTokens(c)[k] == 0 { CopyHasIs(c, k); }
    FlatAvoids(g.copyReady, CopyTokens, k);
    forall c: Copy ensures PendingCopyTokens(c)[k] == 0 { PendingNotEnded(c, k); }
    FlatAvoids(g.pendingCopies, PendingCopyTokens, k);
  }

  /** Tokens of ended files are found in the log only. */
  lemma LogOnly(s: State, k: Token)
    requires Ended(k)
    ensures Total(s)[k] == Flat(s.work.log, EndTokens)[k]
  {
    hide Flat, Sum, RingTotal, SlotsTotal, JobTokens, WaitTokens, EndTokens;
    RingHasNoEnds(s.ring, k);
    SlotsOnly(s.slots);
    OnlyAvoids(SlotKind, SlotsTotal(s.slots), k);
    forall f: FileRef ensures WaitTokens(f)[k] == 0 { WaitNotEnded(f, k); }
    forall j: Job ensures JobTokens(j)[k] == 0 { JobAvoids(j, k); }
    FlatAvoids(s.work.jobs, JobTokens, k);
    FlatAvoids(s.demand.pending, PendTokens, k);
    FlatAvoids(s.waiters, WaitTokens, k);
  }

  lemma WaitNotEnded(f: FileRef, k: Token)
    requires Ended(k)
    ensures WaitTokens(f)[k] == 0
  {
  }

  lemma PendingNotEnded(c: Copy, k: Token)
    requires Ended(k)
    ensures PendingCopyTokens(c)[k] == 0
  {
    hide Flat, CopyTokens;
    match c
    case StoreCopy(f, x) => StoreHasIs(f, x, k);
    case LoadBatch(ms) =>
      forall e: LoadCopy ensures CopyTokens(e)[k] == 0 { CopyHasIs(e, k); }
      FlatAvoids(ms, CopyTokens, k);
  }

  lemma {:induction false} EndsOfFile(log: seq<FileEnd>, f: FileRef)
    ensures Flat(log, EndTokens)[TDone(f)] + Flat(log, EndTokens)[TFail(f)] == CountIf(log, EndOf(f))
  {
    if log != [] { EndsOfFile(log[..|log| - 1], f); }
  }

  lemma EndsOfJob(log: seq<FileEnd>, j: JobId)
    ensures Flat(log, EndTokens)[TOk(j)] == CountIf(log, EndOfJob(j, true))
    ensures Flat(log, EndTokens)[TBad(j)] == CountIf(log, EndOfJob(j, false))
  {
    hide Flat, CountIf;
    FlatCounts(log, EndTokens, TOk(j), EndOfJob(j, true));
    FlatCounts(log, EndTokens, TBad(j), EndOfJob(j, false));
  }

  lemma FileCount(s: State, f: FileRef)
    requires Inv(s)
    ensures Total(s)[TFile(f)] + Total(s)[TDone(f)] + Total(s)[TFail(f)] == One(Started(s.work, f))
  {
    hide Total, SlotPart, BudgetsOk, DemandPart, JobsOk, ActiveOk, Started;
    Nothing(Total(s));
  }

  lemma JobCount(s: State, j: JobId)
    requires Inv(s) && j < |s.work.jobs|
    ensures JobOk(s.work.jobs[j], Total(s)[TJob(j)], Total(s)[TOk(j)], Total(s)[TBad(j)])
  {
    hide Total, SlotPart, BudgetsOk, DemandPart, FilesOnce, ActiveOk, JobOk;
    Nothing(Total(s));
  }

  /** A file that has been started is in exactly one place or has ended exactly once; no other file is
      anywhere. */
  lemma FileOnce(s: State, f: FileRef)
    requires Reached(s)
    ensures PlacesOf(s, f) + CountIf(s.work.log, EndOf(f)) == One(Started(s.work, f))
  {
    hide Reached, Inv, Total, PlacesOf, CountIf, Started, Flat;
    ReachedInv(s);
    FileCount(s, f);
    PlacesAre(s, f);
    LogOnly(s, TDone(f));
    LogOnly(s, TFail(f));
    EndsOfFile(s.work.log, f);
  }

  /** Files started are files done, files failed and files under way, and the job's counters say so. */
  lemma JobAccounts(s: State, j: JobId)
    requires Reached(s) && j < |s.work.jobs|
    ensures var job := s.work.jobs[j];
      && job.inflight == PlacesOfJob(s, j)
      && job.done == CountIf(s.work.log, EndOfJob(j, true))
      && job.next == job.inflight + job.done + CountIf(s.work.log, EndOfJob(j, false))
  {
    hide Reached, Inv, Total, PlacesOfJob, CountIf, Flat;
    ReachedInv(s);
    JobCount(s, j);
    PlacesOfJobAre(s, j);
    LogOnly(s, TOk(j));
    LogOnly(s, TBad(j));
    EndsOfJob(s.work.log, j);
  }

  lemma {:induction false} CountIfHas<T>(s: seq<T>, p: T -> bool)
    ensures CountIf(s, p) > 0 <==> exists i :: 0 <= i < |s| && p(s[i])
  {
    if s != [] {
      CountIfHas(s[..|s| - 1], p);
      assert forall i :: 0 <= i < |s| - 1 ==> s[..|s| - 1][i] == s[i];
      if p(s[|s| - 1]) { assert 0 <= |s| - 1 < |s|; }
    }
  }

  /** Each job's future is resolved at most once: with success if and only if every file was done, with
      failure if and only if some file failed, and before the job can be dropped. */
  lemma FutureOnce(s: State, j: JobId)
    requires Reached(s) && j < |s.work.jobs|
    ensures var job := s.work.jobs[j];
      && |job.outcomes| <= 1 && (job.futureSet <==> |job.outcomes| == 1)
      && (job.outcomes == [Succeeded] <==> CountIf(s.work.log, EndOfJob(j, true)) == |job.hashes|)
      && (job.outcomes == [Failed] <==> exists i :: 0 <= i < |s.work.log| && EndOfJob(j, false)(s.work.log[i]))
      && (Drained(job) ==> job.futureSet)
      && (j !in s.work.active ==> job.futureSet && PlacesOfJob(s, j) == 0)
  {
    hide Reached, Inv, Total, CountIf, Flat, Sound, PlacesOfJob;
    ReachedInv(s);
    JobCount(s, j);
    LogOnly(s, TOk(j));
    LogOnly(s, TBad(j));
    EndsOfJob(s.work.log, j);
    CountIfHas(s.work.log, EndOfJob(j, false));
    PlacesOfJobAre(s, j);
    if j !in s.work.active { InactiveDone(s, j); }
  }

  lemma InactiveDone(s: State, j: JobId)
    requires Inv(s) && j < |s.work.jobs| && j !in s.work.active
    ensures s.work.jobs[j].futureSet && s.work.jobs[j].inflight == 0
  {
    hide Total, SlotPart, BudgetsOk, DemandPart, FilesOnce, JobsOk, Distinct;
  }

  lemma {:induction false} CountAtMost(log: seq<FileEnd>, f: FileRef, j: JobId)
    requires f.job == j && CountIf(log, EndOfJob(j, false)) == 0 && CountIf(log, EndOf(f)) > 0
    ensures FileEnd(f, true) in log
  {
    if EndOf(f)(log[|log| - 1]) {
      assert log[|log| - 1] == FileEnd(f, true);
    } else {
      CountAtMost(log[..|log| - 1], f, j);
    }
  }

  lemma NoPlaceOfJob(s: State, f: FileRef)
    requires PlacesOfJob(s, f.job) == 0
    ensures PlacesOf(s, f) == 0
  {
    hide CountIf, BatchCount, OpsIf;
    Fewer(s.ring.readyLoad, IsFile(f), FileOfJob(f.job));
    Fewer(s.ring.copyReady, CopyOf(f), CopyOfJob(f.job));
    Fewer(s.ring.pendingCopies, StoreOf(f), StoreOfJob(f.job));
    FewerBatched(s.ring.pendingCopies, CopyOf(f), CopyOfJob(f.job));
    Fewer(s.waiters, IsFile(f), FileOfJob(f.job));
    FewerOps(s.ring.inflight, OpOf(f), OpOfJob(f.job));
    NeverCounts(s.ring.readyPreload);
  }

  lemma {:induction false} Fewer<T>(s: seq<T>, p: T -> bool, q: T -> bool)
    requires forall e: T :: p(e) ==> q(e)
    ensures CountIf(s, p) <= CountIf(s, q)
  {
    if s != [] { Fewer(s[..|s| - 1], p, q); }
  }

  lemma {:induction false} FewerBatched(ps: seq<Copy>, p: LoadCopy -> bool, q: LoadCopy -> bool)
    requires forall c: LoadCopy :: p(c) ==> q(c)
    ensures BatchCount(ps, p) <= BatchCount(ps, q)
  {
    if ps != [] {
      FewerBatched(ps[..|ps| - 1], p, q);
      if ps[|ps| - 1].LoadBatch? { Fewer(ps[|ps| - 1].members, p, q); }
    }
  }

  lemma FewerOps(m: map<nat, Op>, p: Op -> bool, q: Op -> bool)
    requires forall o: Op :: p(o) ==> q(o)
    ensures |OpsIf(m, p)| <= |OpsIf(m, q)|
  {
    assert OpsIf(m, p) <= OpsIf(m, q);
    SubsetSize(OpsIf(m, p), OpsIf(m, q));
  }

  lemma {:induction false} SubsetSize(a: set<nat>, b: set<nat>)
    requires a <= b
    ensures |a| <= |b|
  {
    if a != {} {
      var x :| x in a;
      SubsetSize(a - {x}, b - {x});
    }
  }

  /** Success means that each of the job's files was transferred. */
  lemma SuccessMeansAll(s: State, j: JobId, i: nat)
    requires Reached(s) && j < |s.work.jobs| && s.work.jobs[j].outcomes == [Succeeded] && i < |s.work.jobs[j].hashes|
    ensures FileEnd(FileRef(j, i, s.work.jobs[j].hashes[i]), true) in s.work.log
  {
    hide Reached, Inv, PlacesOf, PlacesOfJob, CountIf, EndOf, EndOfJob;
    var f := FileRef(j, i, s.work.jobs[j].hashes[i]);
    JobAccounts(s, j);
    SuccessCounts(s, j);
    NoPlaceOfJob(s, f);
    FileOnce(s, f);
    CountAtMost(s.work.log, f, j);
  }

  lemma SuccessCounts(s: State, j: JobId)
    requires Reached(s) && j < |s.work.jobs| && s.work.jobs[j].outcomes == [Succeeded]
    ensures s.work.jobs[j].next == s.work.jobs[j].done == |s.work.jobs[j].hashes|
  {
    hide Reached, Inv, Total;
    ReachedInv(s);
    JobCount(s, j);
  }

  // ---------- Announced stores ----------

  function IsHash(h: Hash): Hash -> bool { (g: Hash) => g == h }

  /** Files with the hash that a store has not started. */
  function UnscheduledIn(j: Job, h: Hash): nat {
    if j.isStore && j.next <= |j.hashes| then CountIf(j.hashes[j.next..], IsHash(h)) else 0
  }

  function Unscheduled(jobs: seq<Job>, h: Hash): nat {
    if jobs == [] then 0 else Unscheduled(jobs[..|jobs| - 1], h) + UnscheduledIn(jobs[|jobs| - 1], h)
  }

  lemma {:induction false} UnscheduledCounts(jobs: seq<Job>, h: Hash)
    ensures Flat(jobs, JobTokens)[TStore(h)] == Unscheduled(jobs, h)
  {
    if jobs != [] {
      UnscheduledCounts(jobs[..|jobs| - 1], h);
      UnscheduledCount(jobs[|jobs| - 1], h);
    }
  }

  lemma UnscheduledCount(j: Job, h: Hash)
    ensures JobTokens(j)[TStore(h)] == UnscheduledIn(j, h)
  {
    hide Flat, CountIf;
    if j.isStore && j.next <= |j.hashes| { FlatCounts(j.hashes[j.next..], StoreTokens, TStore(h), IsHash(h)); }
  }

  lemma StoreTokensAre(s: State, h: Hash)
    ensures Total(s)[TStore(h)] == RingTotal(s.ring)[TStore(h)] + Flat(s.work.jobs, JobTokens)[TStore(h)]
  {
    hide Flat, Sum, JobTokens, RingTotal;
    var k := TStore(h);
    FlatAvoids(s.slots.free, BlankTokens, k);
    SumAvoids(s.slots.cache.slots, CacheTokens, k);
    FlatAvoids(s.slots.preload, StagedTokens, k);
    SumAvoids(s.slots.shared, SharedTokens, k);
    FlatAvoids(s.work.log, EndTokens, k);
    FlatAvoids(s.demand.pending, PendTokens, k);
    FlatAvoids(s.waiters, WaitTokens, k);
  }

  /** Stores of the hash that are copying or writing. */
  function StoresUnderWay(g: Ring, h: Hash): nat {
    |OpsIf(g.inflight, WriteOf(h))| + CountIf(g.pendingCopies, StoreCopyOf(h))
  }

  lemma AnnouncedNow(s: State, h: Hash)
    requires Inv(s)
    ensures Count(s.demand.storeInflight, h) == StoresUnderWay(s.ring, h) + Unscheduled(s.work.jobs, h)
    ensures h in s.demand.storeInflight <==> StoresUnderWay(s.ring, h) + Unscheduled(s.work.jobs, h) > 0
  {
    hide Inv, Total, RingTotal, CountIf, BatchCount, OpsIf, Picks, Unscheduled, WriteOf, StoreCopyOf;
    DemandTokens(s, h);
    StoreTokensAre(s, h);
    PicksStore(h);
    RingCounts(s.ring, TStore(h), WriteOf(h), Never(), Never(), StoreCopyOf(h), Never());
    UnscheduledCounts(s.work.jobs, h);
    NeverCounts(s.ring.readyLoad);
    NeverCounts(s.ring.readyPreload);
    NeverCounts(s.ring.copyReady);
    NeverBatched(s.ring.pendingCopies);
  }

  /** The count of announced stores is exactly the stores under way and the files that stores have not
      started - among them those that a failed store never will (LeftForEver in ReactorPersistence). */
  lemma AnnouncedStores(s: State, h: Hash)
    requires Reached(s)
    ensures Count(s.demand.storeInflight, h) == StoresUnderWay(s.ring, h) + Unscheduled(s.work.jobs, h)
    ensures h in s.demand.storeInflight <==> StoresUnderWay(s.ring, h) + Unscheduled(s.work.jobs, h) > 0
  {
    hide Reached, Inv, Unscheduled, StoresUnderWay;
    ReachedInv(s);
    AnnouncedNow(s, h);
  }

  lemma {:induction false} UnscheduledJob(jobs: seq<Job>, h: Hash) returns (j: nat)
    requires Unscheduled(jobs, h) > 0
    ensures j < |jobs| && UnscheduledIn(jobs[j], h) > 0
  {
    if UnscheduledIn(jobs[|jobs| - 1], h) > 0 { j := |jobs| - 1; } else { j := UnscheduledJob(jobs[..|jobs| - 1], h); }
  }

  /** Once no work is active, a hash is still marked as being stored only because a store failed before it
      started a file with that hash. */
  lemma LeftoverStoreMark(s: State, h: Hash) returns (j: nat)
    requires Reached(s) && s.work.active == [] && StoresUnderWay(s.ring, h) == 0 && h in s.demand.storeInflight
    ensures j < |s.work.jobs| && s.work.jobs[j].isStore && s.work.jobs[j].outcomes == [Failed]
    ensures exists i :: s.work.jobs[j].next <= i < |s.work.jobs[j].hashes| && s.work.jobs[j].hashes[i] == h
  {
    hide Reached, Inv, Total, Unscheduled, CountIf, StoresUnderWay, PlacesOfJob;
    ReachedInv(s);
    AnnouncedStores(s, h);
    j := UnscheduledJob(s.work.jobs, h);
    UnscheduledFile(s.work.jobs[j], h);
    FutureOnce(s, j);
    NotAllDone(s, j, h);
  }

  lemma UnscheduledFile(job: Job, h: Hash)
    requires UnscheduledIn(job, h) > 0
    ensures exists i :: job.next <= i < |job.hashes| && job.hashes[i] == h
  {
    var rest := job.hashes[job.next..];
    CountIfHas(rest, IsHash(h));
    var i :| 0 <= i < |rest| && IsHash(h)(rest[i]);
    assert job.hashes[job.next + i] == h;
  }

  lemma NotAllDone(s: State, j: JobId, h: Hash)
    requires Inv(s) && j < |s.work.jobs| && UnscheduledIn(s.work.jobs[j], h) > 0 && s.work.jobs[j].futureSet && s.work.jobs[j].isStore
    ensures s.work.jobs[j].outcomes == [Failed]
  {
    hide Inv, Total;
    JobCount(s, j);
    var job := s.work.jobs[j];
    UnscheduledFile(job, h);
    assert job.outcomes == [job.outcomes[0]];
    assert job.outcomes != [Succeeded] && job.outcomes != [Declined];
    assert job.outcomes[0] == Failed;
  }

  // ---------- Reservations ----------

  /** The holder of a slot is waiting for something that will complete: a read, a write, a copy. */
  predicate Busy(s: State, x: Slot, o: Holder) {
    match o
    case FreeAt(_) => false
    case PrivateAt(_) => false
    case SharedAt => x in s.slots.shared && s.slots.shared[x].copies > 0
    case CacheAt(h) => h in s.slots.cache.slots && s.slots.cache.slots[h].copies > 0
    case _ => true
  }

  lemma ReservationFacts(s: State)
    requires Inv(s) && ReserveForeground(s.slots).1.None?
    ensures AllBusy(s.slots)
    ensures s.Cfg().sharePreload ==> s.slots.preload == []
    ensures !s.Cfg().sharePreload ==> s.slots.shared == map[]
    ensures !s.Cfg().hasCache ==> s.slots.cache.slots == map[]
  {
    ModeFacts(s);
    hide Inv, Sound, SlotSound, Outside, AllBusy, ClaimsShrink, ReserveForeground;
    SlotNow(s, multiset{});
    ReserveForegroundSound(s.slots, s.memory, Outside(s) + multiset{});
  }

  lemma ModeFacts(s: State)
    requires Inv(s)
    ensures s.Cfg().sharePreload ==> s.slots.preload == []
    ensures !s.Cfg().sharePreload ==> s.slots.shared == map[]
    ensures !s.Cfg().hasCache ==> s.slots.cache.slots == map[]
  {
    hide Total, SlotsOwned, BytesRight, SharedOk, FilePart, BudgetsOk, DemandPart, SC.Agree;
  }

  /** A foreground reservation fails only if no slot is free and each one is held by a read, a write or a
      copy under way - pinned cache entries and shared slots that are being read included. */
  lemma NoSlotMeansAllBusy(s: State, x: Slot) returns (o: Holder)
    requires Reached(s) && ReserveForeground(s.slots).1.None? && 0 <= x < s.Cfg().slotCount
    ensures s.slots.free == [] && Holds(s, x, o) && Busy(s, x, o)
  {
    hide Reached, Inv, ReserveForeground;
    ReachedInv(s);
    ReservationFacts(s);
    o := OneOwner(s, x);
    ReferenceCounts(s);
    HolderIsBusy(s, x, o);
  }

  lemma HolderIsBusy(s: State, x: Slot, o: Holder)
    requires Holds(s, x, o) && AllBusy(s.slots)
    requires s.Cfg().sharePreload ==> s.slots.preload == []
    requires !s.Cfg().sharePreload ==> s.slots.shared == map[]
    requires !s.Cfg().hasCache ==> s.slots.cache.slots == map[]
    requires forall y :: y in s.slots.shared && y !in s.slots.sharedCached ==> s.slots.shared[y].copies > 0
    ensures Busy(s, x, o)
  {
  }

  /** Work that will complete: an operation on a slot, a copy under way or a copy about to be launched. */
  ghost predicate Outstanding(s: State) {
    || (exists ud, x :: ud in s.ring.inflight && OpUses(s.ring.inflight[ud], x))
    || s.ring.copyReady != []
    || s.ring.pendingCopies != []
  }

  lemma ReadersMeanCopies(g: Ring, source: Source, x: Slot, h: Hash)
    requires Readers(g, source, x, h) > 0
    ensures g.copyReady != [] || g.pendingCopies != []
  {
  }

  /** So the reactor never waits for a slot with nothing outstanding that could free one. */
  lemma NoSlotDeadlock(s: State)
    requires Reached(s) && ReserveForeground(s.slots).1.None? && s.Cfg().slotCount > 0
    ensures Outstanding(s)
  {
    hide Reached, Inv, ReserveForeground, Readers;
    var o := NoSlotMeansAllBusy(s, 0);
    ReferenceCounts(s);
    match o
    case SharedAt => ReadersMeanCopies(s.ring, Shared, 0, s.slots.shared[0].hash);
    case CacheAt(h) => ReadersMeanCopies(s.ring, Cached, s.slots.cache.slots[h].slotIndex, h);
    case OpAt(ud) => assert ud in s.ring.inflight && OpUses(s.ring.inflight[ud], 0);
    case _ =>
  }

  // ---------- A promotion that cannot be opened ----------

  /** Promoting a queued preload keeps the invariant exactly when its file could be opened: otherwise the load
      waits for a read that is not there. */
  lemma PromotionNeedsOpen(s: State, j: JobId, queued: bool)
    requires Reached(s) && Schedulable(s.work, j) && !s.work.jobs[j].isStore && Promotes(s, j)
    ensures var s' := PromotePending(s, j, queued);
      && HasWaiter(s', NextFile(s.work, j).hash)
      && (Inv(s') <==> queued)
      && (!queued ==> !HasInflight(s'.demand, NextFile(s.work, j).hash))
  {
    hide Reached, Inv, PromotePending, HasWaiter, Promotes;
    ReachedInv(s);
    PromotedWaits(s, j, queued);
    if queued {
      PromotedKeeps(s, j);
    } else {
      var s' := PromotePending(s, j, queued);
      if Inv(s') { StrandedImpossible(s', NextFile(s.work, j).hash); }
    }
  }

  lemma PromotedKeeps(s: State, j: JobId)
    requires Inv(s) && Schedulable(s.work, j) && !s.work.jobs[j].isStore && Promotes(s, j)
    ensures Inv(PromotePending(s, j, true))
  {
    hide Inv, PromotePending;
    PromotePendingKeeps(s, j);
  }

  lemma PromotedWaits(s: State, j: JobId, queued: bool)
    requires Schedulable(s.work, j) && Promotes(s, j)
    ensures var s' := PromotePending(s, j, queued);
      && HasWaiter(s', NextFile(s.work, j).hash) && s'.Cfg().sharePreload
      && (!queued ==> !HasInflight(s'.demand, NextFile(s.work, j).hash))
  {
    var f := NextFile(s.work, j);
    var ws := PromotePending(s, j, queued).waiters;
    assert ws == s.waiters + [f];
    assert ws[|s.waiters|].hash == f.hash;
  }

  lemma StrandedImpossible(s: State, h: Hash)
    requires Inv(s) && HasWaiter(s, h)
    ensures s.Cfg().sharePreload ==> HasInflight(s.demand, h)
  {
    hide Inv, Total, HasWaiter;
    WaitsCounted(s, h);
    WaitTokensBound(s, h);
    DemandTokens(s, h);
  }
}
