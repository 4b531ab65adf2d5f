/** The reactor's accounting in every state that a run reaches: counters are counts, files end once, budgets
    hold, nobody waits in vain, and a slot can be found unless every slot is busy. */
module ReactorGuarantees {
  import opened Outcomes
  import opened OrderedKeys
  import opened ReactorState
  import opened ReactorSlots
  import opened Reactor
  import opened ReactorTokens
  import opened ReactorSlotSafety
  import opened ReactorFileSafety
  import opened ReactorDemandSafety
  import opened ReactorMoves
  import opened ReactorDemandMoves
  import opened ReactorSafety
  import opened ReactorRuns
  import opened ReactorTheorems
  import SC = StagingCache

  // ---------- Counting ----------

  /** How many elements satisfy `p`. */
  function CountIf<T>(s: seq<T>, p: T -> bool): nat {
    if s == [] then 0 else CountIf(s[..|s| - 1], p) + if p(s[|s| - 1]) then 1 else 0
  }

  /** How many load copies under way satisfy `p`. */
  function BatchCount(ps: seq<Copy>, p: LoadCopy -> bool): nat {
    if ps == [] then 0
    else BatchCount(ps[..|ps| - 1], p) + match ps[|ps| - 1] { case LoadBatch(ms) => CountIf(ms, p) case StoreCopy(_, _) => 0 }
  }

  /** The operations in flight that satisfy `p`. */
  function OpsIf(m: map<nat, Op>, p: Op -> bool): set<nat> {
    set ud | ud in m && p(m[ud])
  }

  function Never<T>(): T -> bool { e => false }

  lemma {:induction false} FlatCounts<T>(s: seq<T>, f: T -> multiset<Token>, k: Token, p: T -> bool)
    requires forall e: T :: f(e)[k] == One(p(e))
    ensures Flat(s, f)[k] == CountIf(s, p)
  {
    if s != [] { FlatCounts(s[..|s| - 1], f, k, p); }
  }

  lemma {:induction false} OpsCount(m: map<nat, Op>, k: Token, p: Op -> bool)
    requires forall ud: nat, op: Op :: OpTokens(ud, op)[k] == One(p(op))
    ensures Sum(m, OpTokens)[k] == |OpsIf(m, p)|
    decreases m
  {
    hide OpTokens;
    if m == map[] {
      assert OpsIf(m, p) == {};
    } else {
      var j :| j in m && Sum(m, OpTokens) == Sum(m - {j}, OpTokens) + OpTokens(j, m[j]);
      OpsCount(m - {j}, k, p);
      assert OpsIf(m, p) == OpsIf(m - {j}, p) + if p(m[j]) then {j} else {};
    }
  }

  lemma {:induction false} PendingCounts(ps: seq<Copy>, k: Token, store: Copy -> bool, copy: LoadCopy -> bool)
    requires forall c: LoadCopy :: CopyTokens(c)[k] == One(copy(c))
    requires forall c: Copy :: c.StoreCopy? ==> PendingCopyTokens(c)[k] == One(store(c))
    requires forall c: Copy :: c.LoadBatch? ==> !store(c)
    ensures Flat(ps, PendingCopyTokens)[k] == CountIf(ps, store) + BatchCount(ps, copy)
  {
    hide CopyTokens;
    if ps != [] {
      PendingCounts(ps[..|ps| - 1], k, store, copy);
      var c := ps[|ps| - 1];
      if c.LoadBatch? { FlatCounts(c.members, CopyTokens, k, copy); }
    }
  }

  /** How often the ring holds something, told apart by predicates on what it consists of. */
  function RingCount(g: Ring, op: Op -> bool, file: FileRef -> bool, info: Info -> bool, store: Copy -> bool, copy: LoadCopy -> bool): nat {
    |OpsIf(g.inflight, op)| + CountIf(g.readyLoad, file) + CountIf(g.readyPreload, info)
    + CountIf(g.copyReady, copy) + CountIf(g.pendingCopies, store) + BatchCount(g.pendingCopies, copy)
  }

  /** The predicates pick out exactly the elements with the token, each of which has it once. */
  ghost predicate Picks(k: Token, op: Op -> bool, file: FileRef -> bool, info: Info -> bool, store: Copy -> bool, copy: LoadCopy -> bool) {
    && (forall ud: nat, o: Op :: OpTokens(ud, o)[k] == One(op(o)))
    && (forall f: FileRef :: FileTokens(f)[k] == One(file(f)))
    && (forall i: Info :: ReadyPreloadTokens(i)[k] == One(info(i)))
    && (forall c: LoadCopy :: CopyTokens(c)[k] == One(copy(c)))
    && (forall c: Copy :: c.StoreCopy? ==> PendingCopyTokens(c)[k] == One(store(c)))
    && (forall c: Copy :: c.LoadBatch? ==> !store(c))
  }

  lemma RingCounts(g: Ring, k: Token, op: Op -> bool, file: FileRef -> bool, info: Info -> bool, store: Copy -> bool, copy: LoadCopy -> bool)
    requires Picks(k, op, file, info, store, copy)
    ensures RingTotal(g)[k] == RingCount(g, op, file, info, store, copy)
  {
    hide Flat, Sum, OpTokens, FileTokens, ReadyPreloadTokens, CopyTokens, PendingCopyTokens, One;
    OpsCount(g.inflight, k, op);
    FlatCounts(g.readyLoad, FileTokens, k, file);
    FlatCounts(g.readyPreload, ReadyPreloadTokens, k, info);
    FlatCounts(g.copyReady, CopyTokens, k, copy);
    PendingCounts(g.pendingCopies, k, store, copy);
  }

  // ---------- Which elements carry what ----------

  function FileOf(op: Op): Option<FileRef> {
    match op
    case OpenLoad(f) => Some(f)
    case ReadLoad(f, _) => Some(f)
    case Write(f, _) => Some(f)
    case _ => None
  }

  function OpOf(f: FileRef): Op -> bool { (op: Op) => FileOf(op) == Some(f) }

  function IsFile(f: FileRef): FileRef -> bool { (g: FileRef) => g == f }

  function StoreOf(f: FileRef): Copy -> bool { (c: Copy) => c.StoreCopy? && c.file == f }

  function CopyOf(f: FileRef): LoadCopy -> bool { (c: LoadCopy) => c.file == f }

  function OpOfJob(j: JobId): Op -> bool { (op: Op) => FileOf(op).Some? && FileOf(op).value.job == j }

  function FileOfJob(j: JobId): FileRef -> bool { (f: FileRef) => f.job == j }

  function StoreOfJob(j: JobId): Copy -> bool { (c: Copy) => c.StoreCopy? && c.file.job == j }

  function CopyOfJob(j: JobId): LoadCopy -> bool { (c: LoadCopy) => c.file.job == j }

  function DataOp(): Op -> bool { (op: Op) => op.ReadLoad? || op.ReadPreload? || op.Write? }

  function OpenOp(): Op -> bool { (op: Op) => op.OpenLoad? || op.OpenPreload? }

  function IsStoreCopy(): Copy -> bool { (c: Copy) => c.StoreCopy? }

  function PreloadOp(h: Hash): Op -> bool { (op: Op) => (op.OpenPreload? || op.ReadPreload?) && op.info.hash == h }

  function AnyPreloadOp(): Op -> bool { (op: Op) => op.OpenPreload? || op.ReadPreload? }

  function InfoOf(h: Hash): Info -> bool { (i: Info) => i.hash == h }

  function Always<T>(): T -> bool { e => true }

  function Reads(source: Source, x: Slot, h: Hash): LoadCopy -> bool { (c: LoadCopy) => c.source == source && c.slot == x && c.file.hash == h }

  function WriteOf(h: Hash): Op -> bool { (op: Op) => op.Write? && op.file.hash == h }

  function StoreCopyOf(h: Hash): Copy -> bool { (c: Copy) => c.StoreCopy? && c.file.hash == h }

  lemma PicksBy(k: Token, op: Op -> bool, file: FileRef -> bool, info: Info -> bool, store: Copy -> bool, copy: LoadCopy -> bool)
    requires forall o: Op :: OpHas(o, k) == One(op(o))
    requires forall f: FileRef :: FileHas(f, k) == One(file(f))
    requires forall i: Info :: InfoHas(i, k) == One(info(i))
    requires forall c: LoadCopy :: CopyHas(c, k) == One(copy(c))
    requires forall f: FileRef, x: Slot :: StoreHas(f, x, k) == One(store(StoreCopy(f, x)))
    requires forall c: Copy :: c.LoadBatch? ==> !store(c)
    ensures Picks(k, op, file, info, store, copy)
  {
    hide OpTokens, FileTokens, ReadyPreloadTokens, CopyTokens, PendingCopyTokens, OpHas, FileHas, InfoHas, CopyHas, StoreHas, One;
    forall ud: nat, o: Op ensures OpTokens(ud, o)[k] == One(op(o)) { OpHasIs(ud, o, k); }
    forall f: FileRef ensures FileTokens(f)[k] == One(file(f)) { FileHasIs(f, k); }
    forall i: Info ensures ReadyPreloadTokens(i)[k] == One(info(i)) { InfoHasIs(i, k); }
    forall c: LoadCopy ensures CopyTokens(c)[k] == One(copy(c)) { CopyHasIs(c, k); }
    forall c: Copy | c.StoreCopy? ensures PendingCopyTokens(c)[k] == One(store(c)) { StoreHasIs(c.file, c.slot, k); }
  }

  lemma PicksFile(f: FileRef)
    ensures Picks(TFile(f), OpOf(f), IsFile(f), Never(), StoreOf(f), CopyOf(f))
  {
    hide Picks;
    PicksBy(TFile(f), OpOf(f), IsFile(f), Never(), StoreOf(f), CopyOf(f));
  }

  lemma PicksJob(j: JobId)
    ensures Picks(TJob(j), OpOfJob(j), FileOfJob(j), Never(), StoreOfJob(j), CopyOfJob(j))
  {
    hide Picks;
    PicksBy(TJob(j), OpOfJob(j), FileOfJob(j), Never(), StoreOfJob(j), CopyOfJob(j));
  }

  lemma PicksData()
    ensures Picks(TData, DataOp(), Never(), Never(), IsStoreCopy(), Never())
  {
    hide Picks;
    PicksBy(TData, DataOp(), Never(), Never(), IsStoreCopy(), Never());
  }

  lemma PicksOpen()
    ensures Picks(TOpen, OpenOp(), Never(), Never(), Never(), Never())
  {
    hide Picks;
    PicksBy(TOpen, OpenOp(), Never(), Never(), Never(), Never());
  }

  lemma PicksPreload(h: Hash)
    ensures Picks(TPre(h), PreloadOp(h), Never(), InfoOf(h), Never(), Never())
  {
    hide Picks;
    PicksBy(TPre(h), PreloadOp(h), Never(), InfoOf(h), Never(), Never());
  }

  lemma PicksAnyPreload()
    ensures Picks(TPreAll, AnyPreloadOp(), Never(), Always(), Never(), Never())
  {
    hide Picks;
    PicksBy(TPreAll, AnyPreloadOp(), Never(), Always(), Never(), Never());
  }

  lemma PicksShared(x: Slot, h: Hash)
    ensures Picks(TShared(x, h), Never(), Never(), Never(), Never(), Reads(Shared, x, h))
  {
    hide Picks;
    PicksBy(TShared(x, h), Never(), Never(), Never(), Never(), Reads(Shared, x, h));
  }

  lemma PicksCached(x: Slot, h: Hash)
    ensures Picks(TPin(h, x), Never(), Never(), Never(), Never(), Reads(Cached, x, h))
  {
    hide Picks;
    PicksBy(TPin(h, x), Never(), Never(), Never(), Never(), Reads(Cached, x, h));
  }

  lemma PicksStore(h: Hash)
    ensures Picks(TStore(h), WriteOf(h), Never(), Never(), StoreCopyOf(h), Never())
  {
    hide Picks;
    PicksBy(TStore(h), WriteOf(h), Never(), Never(), StoreCopyOf(h), Never());
  }

  /** Tokens found only in the ring and, for files and jobs, among the waiting files. */
  ghost predicate RingOnly(k: Token) {
    k.TData? || k.TOpen? || k.TPre? || k.TPreAll? || k.TShared? || k.TPin? || k.TFile? || k.TJob?
  }

  lemma TotalOutsideRing(s: State, k: Token)
    requires RingOnly(k)
    ensures Total(s)[k] == RingTotal(s.ring)[k] + Flat(s.waiters, WaitTokens)[k]
  {
    hide Flat, Sum, RingTotal, JobTokens, WaitTokens;
    FlatAvoids(s.slots.free, BlankTokens, k);
    SumAvoids(s.slots.cache.slots, CacheTokens, k);
    FlatAvoids(s.slots.preload, StagedTokens, k);
    SumAvoids(s.slots.shared, SharedTokens, k);
    forall j: Job ensures JobTokens(j)[k] == 0 { JobAvoids(j, k); }
    FlatAvoids(s.work.jobs, JobTokens, k);
    FlatAvoids(s.work.log, EndTokens, k);
    FlatAvoids(s.demand.pending, PendTokens, k);
  }

  lemma JobAvoids(j: Job, k: Token)
    requires !k.TStore?
    ensures JobTokens(j)[k] == 0
  {
    hide Flat;
    if j.isStore && j.next <= |j.hashes| { FlatAvoids(j.hashes[j.next..], StoreTokens, k); }
  }

  lemma NotWaiting(s: State, k: Token)
    requires RingOnly(k) && !k.TFile? && !k.TJob?
    ensures Total(s)[k] == RingTotal(s.ring)[k]
  {
    TotalOutsideRing(s, k);
    hide Flat, RingTotal, Total;
    FlatAvoids(s.waiters, WaitTokens, k);
  }

  // ---------- References to slots ----------

  /** Load copies, queued or under way, of the hash's bytes from slot `x`. */
  function Readers(g: Ring, source: Source, x: Slot, h: Hash): nat {
    CountIf(g.copyReady, Reads(source, x, h)) + BatchCount(g.pendingCopies, Reads(source, x, h))
  }

  lemma {:induction false} NeverCounts<T>(s: seq<T>)
    ensures CountIf(s, Never()) == 0
  {
    if s != [] { NeverCounts(s[..|s| - 1]); }
  }

  lemma {:induction false} NeverBatched(ps: seq<Copy>)
    ensures BatchCount(ps, Never()) == 0
  {
    if ps != [] {
      NeverBatched(ps[..|ps| - 1]);
      if ps[|ps| - 1].LoadBatch? { NeverCounts(ps[|ps| - 1].members); }
    }
  }

  lemma NeverOps(m: map<nat, Op>)
    ensures |OpsIf(m, Never())| == 0
  {
    assert OpsIf(m, Never()) == {};
  }

  lemma ReadersCount(s: State, source: Source, x: Slot, h: Hash)
    requires source != Owned
    ensures Total(s)[if source == Shared then TShared(x, h) else TPin(h, x)] == Readers(s.ring, source, x, h)
  {
    hide Total, RingTotal, CountIf, BatchCount, OpsIf, Picks, Reads;
    PicksShared(x, h);
    PicksCached(x, h);
    var k := if source == Shared then TShared(x, h) else TPin(h, x);
    RingCounts(s.ring, k, Never(), Never(), Never(), Never(), Reads(source, x, h));
    NotWaiting(s, k);
    NeverOps(s.ring.inflight);
    NeverCounts(s.ring.readyLoad);
    NeverCounts(s.ring.readyPreload);
    NeverCounts(s.ring.pendingCopies);
  }

  /** The reference count of a shared slot object, and the pin count of a cache entry, is the number of
      copies reading it; a shared object that nobody can claim any more is still being read. */
  lemma ReferenceCounts(s: State)
    requires Reached(s)
    ensures forall x :: x in s.slots.shared ==> s.slots.shared[x].copies == Readers(s.ring, Shared, x, s.slots.shared[x].hash)
    ensures forall x :: x in s.slots.shared && x !in s.slots.sharedCached ==> s.slots.shared[x].copies > 0
    ensures forall h :: h in s.slots.cache.slots ==>
      s.slots.cache.slots[h].copies == Readers(s.ring, Cached, s.slots.cache.slots[h].slotIndex, h)
  {
    hide Readers, Reached, Inv, Total;
    ReachedInv(s);
    NoHandles(s);
    forall x | x in s.slots.shared ensures s.slots.shared[x].copies == Readers(s.ring, Shared, x, s.slots.shared[x].hash) {
      SharedCount(s, x);
      ReadersCount(s, Shared, x, s.slots.shared[x].hash);
    }
    forall h | h in s.slots.cache.slots
      ensures s.slots.cache.slots[h].copies == Readers(s.ring, Cached, s.slots.cache.slots[h].slotIndex, h)
    {
      PinCount(s, h);
      ReadersCount(s, Cached, s.slots.cache.slots[h].slotIndex, h);
    }
  }

  lemma SharedCount(s: State, x: Slot)
    requires Inv(s) && x in s.slots.shared
    ensures s.slots.shared[x].copies == Total(s)[TShared(x, s.slots.shared[x].hash)]
  {
    hide Total, CacheOk, SlotsOwned, BytesRight, FilePart, BudgetsOk, DemandPart;
    Nothing(Total(s));
  }

  lemma PinCount(s: State, h: Hash)
    requires Inv(s) && h in s.slots.cache.slots
    ensures s.slots.cache.slots[h].copies == Total(s)[TPin(h, s.slots.cache.slots[h].slotIndex)]
  {
    hide Total, SharedOk, SlotsOwned, BytesRight, FilePart, BudgetsOk, DemandPart, SC.Agree;
    Nothing(Total(s));
  }

  lemma NoHandle(s: State, x: Slot)
    ensures Total(s)[THandle(x)] == 0
  {
    hide Flat, Sum, OpTokens, FileTokens, ReadyPreloadTokens, CopyTokens, PendingCopyTokens, JobTokens, WaitTokens;
    var k := THandle(x);
    forall ud: nat, op: Op ensures OpTokens(ud, op)[k] == 0 { OpHasNoHandle(ud, op, x); }
    SumAvoids(s.ring.inflight, OpTokens, k);
    forall f: FileRef ensures FileTokens(f)[k] == 0 && WaitTokens(f)[k] == 0 { FileHasNoHandle(f, x); }
    FlatAvoids(s.ring.readyLoad, FileTokens, k);
    forall i: Info ensures ReadyPreloadTokens(i)[k] == 0 { InfoHasNoHandle(i, x); }
    FlatAvoids(s.ring.readyPreload, ReadyPreloadTokens, k);
    forall c: LoadCopy ensures CopyTokens(c)[k] == 0 { CopyHasNoHandle(c, x); }
    FlatAvoids(s.ring.copyReady, CopyTokens, k);
    forall c: Copy ensures PendingCopyTokens(c)[k] == 0 { PendingHasNoHandle(c, x); }
    FlatAvoids(s.ring.pendingCopies, PendingCopyTokens, k);
    FlatAvoids(s.slots.free, BlankTokens, k);
    SumAvoids(s.slots.cache.slots, CacheTokens, k);
    FlatAvoids(s.slots.preload, StagedTokens, k);
    SumAvoids(s.slots.shared, SharedTokens, k);
    forall j: Job ensures JobTokens(j)[k] == 0 { JobAvoids(j, k); }
    FlatAvoids(s.work.jobs, JobTokens, k);
    FlatAvoids(s.work.log, EndTokens, k);
    FlatAvoids(s.demand.pending, PendTokens, k);
    FlatAvoids(s.waiters, WaitTokens, k);
  }

  lemma OpHasNoHandle(ud: nat, op: Op, x: Slot) ensures OpTokens(ud, op)[THandle(x)] == 0 {}

  lemma FileHasNoHandle(f: FileRef, x: Slot) ensures FileTokens(f)[THandle(x)] == 0 && WaitTokens(f)[THandle(x)] == 0 {}

  lemma InfoHasNoHandle(i: Info, x: Slot) ensures ReadyPreloadTokens(i)[THandle(x)] == 0 {}

  lemma CopyHasNoHandle(c: LoadCopy, x: Slot) ensures CopyTokens(c)[THandle(x)] == 0 {}

  lemma PendingHasNoHandle(c: Copy, x: Slot)
    ensures PendingCopyTokens(c)[THandle(x)] == 0
  {
    if c.LoadBatch? {
      hide Flat, CopyTokens;
      forall e: LoadCopy ensures CopyTokens(e)[THandle(x)] == 0 { CopyHasNoHandle(e, x); }
      FlatAvoids(c.members, CopyTokens, THandle(x));
    }
  }

  lemma NoHandles(s: State)
    requires Inv(s)
    ensures forall x :: x in s.slots.shared && x !in s.slots.sharedCached ==> s.slots.shared[x].copies > 0
  {
    hide Total, CacheOk, SlotsOwned, BytesRight, FilePart, BudgetsOk, DemandPart;
    Nothing(Total(s));
    forall x | x in s.slots.shared && x !in s.slots.sharedCached ensures s.slots.shared[x].copies > 0 { NoHandle(s, x); }
  }

  // ---------- Budgets ----------

  /** The device budget counts the reads, the writes and the stores' copies, and is never exceeded; nor is
      the number of files opened ahead. */
  lemma BudgetsHold(s: State)
    requires Reached(s)
    ensures s.ring.dataInflight == |OpsIf(s.ring.inflight, DataOp())| + CountIf(s.ring.pendingCopies, IsStoreCopy()) <= s.Cfg().iodepth
    ensures s.ring.openInflight == |OpsIf(s.ring.inflight, OpenOp())|
    ensures |OpsIf(s.ring.inflight, OpenOp())| + |s.ring.readyLoad| + |s.ring.readyPreload| <= s.Cfg().openLookahead
  {
    hide Total, RingTotal, CountIf, BatchCount, OpsIf, Picks, Reached, Inv, DataOp, OpenOp, IsStoreCopy;
    ReachedInv(s);
    BudgetTokens(s);
    PicksData();
    RingCounts(s.ring, TData, DataOp(), Never(), Never(), IsStoreCopy(), Never());
    NotWaiting(s, TData);
    PicksOpen();
    RingCounts(s.ring, TOpen, OpenOp(), Never(), Never(), Never(), Never());
    NotWaiting(s, TOpen);
    NeverCounts(s.ring.readyLoad);
    NeverCounts(s.ring.readyPreload);
    NeverCounts(s.ring.copyReady);
    NeverCounts(s.ring.pendingCopies);
    NeverBatched(s.ring.pendingCopies);
  }

  /** Another file may be opened exactly when fewer files than the lookahead are being opened or are open. */
  lemma OpensWithinLookahead(s: State)
    requires Reached(s)
    ensures CanOpen(s) <==> |OpsIf(s.ring.inflight, OpenOp())| + |s.ring.readyLoad| + |s.ring.readyPreload| < s.Cfg().openLookahead
  {
    hide Reached, OpsIf, OpenOp;
    BudgetsHold(s);
  }

  lemma BudgetTokens(s: State)
    requires Inv(s)
    ensures s.ring.dataInflight == Total(s)[TData] <= s.Cfg().iodepth
    ensures s.ring.openInflight == Total(s)[TOpen]
    ensures s.ring.openInflight + |s.ring.readyLoad| + |s.ring.readyPreload| <= s.Cfg().openLookahead
  {
    hide Total, SlotPart, FilePart, DemandPart;
    Nothing(Total(s));
  }

  // ---------- Preloads under way and the files waiting for them ----------

  /** Preloads of the hash that are opening, open or reading. */
  function PreloadsOf(g: Ring, h: Hash): nat {
    |OpsIf(g.inflight, PreloadOp(h))| + CountIf(g.readyPreload, InfoOf(h))
  }

  lemma {:induction false} AlwaysCounts<T>(s: seq<T>)
    ensures CountIf(s, Always()) == |s|
  {
    if s != [] { AlwaysCounts(s[..|s| - 1]); }
  }

  /** The per-hash count of preloads under way counts them, and the total is the total. */
  lemma InflightCounts(s: State, h: Hash)
    requires Reached(s)
    ensures Count(s.demand.inflightHashes, h) == PreloadsOf(s.ring, h)
    ensures s.demand.inflightTotal == |OpsIf(s.ring.inflight, AnyPreloadOp())| + |s.ring.readyPreload|
  {
    hide Total, RingTotal, CountIf, BatchCount, OpsIf, Picks, Reached, Inv, PreloadOp, InfoOf, AnyPreloadOp;
    ReachedInv(s);
    DemandTokens(s, h);
    PicksPreload(h);
    RingCounts(s.ring, TPre(h), PreloadOp(h), Never(), InfoOf(h), Never(), Never());
    NotWaiting(s, TPre(h));
    PicksAnyPreload();
    RingCounts(s.ring, TPreAll, AnyPreloadOp(), Never(), Always(), Never(), Never());
    NotWaiting(s, TPreAll);
    AlwaysCounts(s.ring.readyPreload);
    NeverCounts(s.ring.readyLoad);
    NeverCounts(s.ring.copyReady);
    NeverCounts(s.ring.pendingCopies);
    NeverBatched(s.ring.pendingCopies);
  }

  lemma DemandTokens(s: State, h: Hash)
    requires Inv(s)
    ensures Count(s.demand.inflightHashes, h) == Total(s)[TPre(h)] && s.demand.inflightTotal == Total(s)[TPreAll]
    ensures Count(s.demand.pendingCount, h) == Total(s)[TPend(h)]
    ensures 0 <= Count(s.demand.pendingCancel, h) <= Count(s.demand.pendingCount, h)
    ensures Count(s.demand.storeInflight, h) == Total(s)[TStore(h)] && (h in s.demand.storeInflight <==> Total(s)[TStore(h)] > 0)
  {
    hide Total, SlotPart, FilePart, BudgetsOk, MissingOk, WaitersOk, Unique;
    Nothing(Total(s));
  }

  /** Nobody waits in vain. Private preloads: never more files wait than preloads of the hash are under way.
      Shared preloads: a file that waits has a preload of its hash under way. */
  lemma NobodyStranded(s: State, h: Hash)
    requires Reached(s)
    ensures !s.Cfg().sharePreload ==> WaiterCount(s.waiters, h) <= PreloadsOf(s.ring, h)
    ensures s.Cfg().sharePreload && HasWaiter(s, h) ==> PreloadsOf(s.ring, h) > 0
  {
    hide Total, Reached, Inv, PreloadsOf, WaiterCount, HasWaiter;
    ReachedInv(s);
    InflightCounts(s, h);
    DemandTokens(s, h);
    WaitsCounted(s, h);
    WaitTokensBound(s, h);
  }

  lemma WaitTokensBound(s: State, h: Hash)
    requires Inv(s)
    ensures !s.Cfg().sharePreload ==> Total(s)[TWait(h)] <= Total(s)[TPre(h)]
    ensures s.Cfg().sharePreload && Total(s)[TWait(h)] > 0 ==> Total(s)[TPre(h)] > 0
  {
    hide Total, SlotPart, FilePart, BudgetsOk, MissingOk, CountsOk, Unique;
    Nothing(Total(s));
    NoneServing(s, h);
  }

  /** Private preload copies, staged and under way, leave a device's worth of slots to foreground loads. */
  lemma PrivateShare(s: State)
    requires Reached(s) && !s.Cfg().sharePreload
    ensures s.slots.cachedTotal == |s.slots.preload|
    ensures |s.slots.preload| + s.demand.inflightTotal <= s.Cfg().MaxPreloadSlots()
  {
    hide Reached;
    ReachedInv(s);
    hide Total, SlotsOwned, BytesRight, CacheOk, SharedOk, FilePart, BudgetsOk, MissingOk, CountsOk, Unique, WaitersOk;
  }

  // ---------- Shared preloading keeps one of each ----------

  /** With shared preloading: at most one live queue entry, read or claimable slot per hash; nothing for a hash
      whose file is missing or being written; an unclaimed preload under way has no queue entry left, not even
      a cancelled one; and a claimable slot has demand. */
  lemma OnePreloadPerHash(s: State, h: Hash)
    requires Reached(s) && s.Cfg().sharePreload
    ensures Count(s.demand.pendingCount, h) - Count(s.demand.pendingCancel, h) + PreloadsOf(s.ring, h)
            + One(Claimable(s.slots, h).Some?) <= 1
    ensures h in s.demand.missing || h in s.demand.blocked ==>
      Count(s.demand.pendingCount, h) == 0 && PreloadsOf(s.ring, h) == 0 && Claimable(s.slots, h).None?
    ensures PreloadsOf(s.ring, h) > 0 && !HasWaiter(s, h) ==> Count(s.demand.pendingCount, h) == 0
    ensures Count(s.demand.pendingCount, h) <= 1
    ensures Claimable(s.slots, h).Some? ==> Count(s.slots.refcount, h) > 0
  {
    hide Total, Reached, PreloadsOf, HasWaiter, Claimable, Sound, SlotSound, Outside;
    ReachedInv(s);
    InflightCounts(s, h);
    DemandTokens(s, h);
    WaitsCounted(s, h);
    NoneServing(s, h);
    SlotNow(s, multiset{});
    ClaimableMeansClaimed(s.slots, s.memory, Outside(s) + multiset{}, h);
    UniqueTokens(s, h);
  }

  lemma UniqueTokens(s: State, h: Hash)
    requires Inv(s) && s.Cfg().sharePreload && Total(s)[TServe(h)] == 0
    ensures Total(s)[TPend(h)] <= 1
    ensures Total(s)[TPend(h)] - Count(s.demand.pendingCancel, h) + Total(s)[TPre(h)] + Claims(s.slots, h) <= 1
    ensures h in s.demand.missing || h in s.demand.blocked ==>
      Total(s)[TPend(h)] == 0 && Total(s)[TPre(h)] == 0 && Claims(s.slots, h) == 0
    ensures Total(s)[TPre(h)] > 0 && Total(s)[TWait(h)] == 0 ==> Total(s)[TPend(h)] == 0
    ensures Claims(s.slots, h) > 0 ==> Count(s.slots.refcount, h) > 0
  {
    hide Total, SlotPart, FilePart, BudgetsOk, MissingOk, CountsOk, WaitersOk, Claims;
    Nothing(Total(s));
  }

  /** At most one queue entry for the hash, and at most one live entry, preload or claimable slot; none of them
      while the hash is missing or being written. */
  predicate OneOfEach(s: State, h: Hash) {
    var d := s.demand;
    && Count(d.pendingCount, h) <= 1
    && Count(d.pendingCount, h) - Count(d.pendingCancel, h) + Count(d.inflightHashes, h) + One(Claimable(s.slots, h).Some?) <= 1
    && (h in d.missing || h in d.blocked ==>
          Count(d.pendingCount, h) == 0 && Count(d.inflightHashes, h) == 0 && Claimable(s.slots, h).None?)
  }

  lemma OneOfEachNow(s: State, h: Hash)
    requires Inv(s) && s.Cfg().sharePreload
    ensures OneOfEach(s, h) && 0 <= Count(s.demand.pendingCancel, h) <= Count(s.demand.pendingCount, h)
    ensures 0 <= Count(s.demand.inflightHashes, h)
  {
    hide Total, Inv, Claimable, Claims, Sound, SlotSound, Outside;
    DemandTokens(s, h);
    NoneServing(s, h);
    InvSound(s);
    SlotNow(s, multiset{});
    ClaimableMeansClaimed(s.slots, s.memory, Outside(s) + multiset{}, h);
    UniqueTokens(s, h);
  }

  lemma EntryTooMany(s: State, info: Info)
    requires OneOfEach(s, info.hash) && HasAnySharedState(s.slots, s.demand, info.hash)
    requires 0 <= Count(s.demand.pendingCancel, info.hash) <= Count(s.demand.pendingCount, info.hash)
    requires 0 <= Count(s.demand.inflightHashes, info.hash)
    ensures !OneOfEach(s.(demand := PendingPush(s.demand, info)), info.hash)
  {
    hide Claimable;
  }

  /** With shared preloading, a demand may be queued exactly when nothing shared exists for its hash: otherwise
      the entry is one too many. */
  lemma QueueOnlyIfNothingShared(s: State, info: Info)
    requires Reached(s) && s.Cfg().sharePreload
    ensures var s' := s.(demand := PendingPush(s.demand, info));
      && (Inv(s') <==> !HasAnySharedState(s.slots, s.demand, info.hash))
      && (OneOfEach(s', info.hash) <==> !HasAnySharedState(s.slots, s.demand, info.hash))
  {
    hide Reached, Inv, HasAnySharedState, OneOfEach, PendingPush, Absent, Total;
    ReachedInv(s);
    OneOfEachNow(s, info.hash);
    var s' := s.(demand := PendingPush(s.demand, info));
    if HasAnySharedState(s.slots, s.demand, info.hash) {
      EntryTooMany(s, info);
      if Inv(s') { OneOfEachNow(s', info.hash); }
    } else {
      InvSound(s);
      NothingShared(s, info.hash);
      PendingPushKeeps(s, multiset{}, info);
      SoundInv(s');
      OneOfEachNow(s', info.hash);
    }
  }

  lemma SoundInv(s: State)
    requires Sound(s, multiset{})
    ensures Inv(s)
  {
  }

  /** With shared preloading no demand is lost: the count of a hash covers every request on record as wanting
      it, and withdrawing one of them lowers both by exactly one. */
  lemma DemandNeverUndercounted(s: State, r: ReqId, h: Hash)
    requires Reached(s) && s.Cfg().sharePreload
    ensures Owners(s.slots.owned, h) <= Count(s.slots.refcount, h)
    ensures (r, h) in s.slots.owned ==>
      var z := Decref(s.slots, r, h);
      forall k: Hash ::
        && Owners(z.owned, k) == Owners(s.slots.owned, k) - One(k == h)
        && Count(z.refcount, k) == Count(s.slots.refcount, k) - One(k == h)
  {
    hide Reached, Inv, Sound, Owners, Decref, Without, Withdrawn;
    ReachedInv(s);
    InvSound(s);
    CountedIn(s, multiset{});
    if (r, h) in s.slots.owned {
      WithdrawnCounts(s.slots.owned, s.slots.refcount, r, h);
      DecrefWithdraws(s.slots, r, h);
    }
  }

  lemma InvSound(s: State)
    requires Inv(s)
    ensures Sound(s, multiset{})
  {
  }

  lemma DecrefWithdraws(z: Slots, r: ReqId, h: Hash)
    requires (r, h) in z.owned
    ensures Decref(z, r, h).owned == Without(z.owned, (r, h)) && Decref(z, r, h).refcount == Withdrawn(z.refcount, h)
  {
    hide SC.Put, Without, Claimable;
  }
}
