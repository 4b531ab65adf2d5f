/** A load that succeeds has copied every one of its files to the GPU, in batches that put the bytes of the
    files' hashes into the blocks they are for. */
module ReactorDelivery {
  import opened Outcomes
  import opened OrderedKeys
  import opened ReactorState
  import opened ReactorSlots
  import opened Reactor
  import opened ReactorFrames
  import opened ReactorConfig
  import opened ReactorBytes
  import opened ReactorTokens
  import opened ReactorMoves
  import opened ReactorRuns
  import opened ReactorTheorems
  import opened ReactorOutcomes
  import opened ReactorPersistence
  import SC = StagingCache
  import T = Transfer
  import B = RoundTrip
  import F = FusedLoad

  // ---------- Only stores write files ----------

  predicate OfStore(w: Work, f: FileRef) {
    f.job < |w.jobs| && w.jobs[f.job].isStore
  }

  /** The files being written, or copied from the GPU, belong to stores. */
  ghost predicate WritesAreStores(w: Work, g: Ring) {
    && (forall ud :: ud in g.inflight && g.inflight[ud].Write? ==> OfStore(w, g.inflight[ud].file))
    && (forall c :: c in g.pendingCopies && c.StoreCopy? ==> OfStore(w, c.file))
  }

  lemma OfStoreKept(w: Work, w': Work, f: FileRef)
    requires JobsKept(w, w') && f.job < |w.jobs|
    ensures OfStore(w', f) <==> OfStore(w, f)
  {
    assert JobKept(w.jobs[f.job], w'.jobs[f.job]);
  }

  lemma NoNewWrites(w: Work, g: Ring, w': Work, g': Ring)
    requires WritesAreStores(w, g) && JobsKept(w, w') && NoNewStores(g, g')
    ensures WritesAreStores(w', g')
  {
    hide JobsKept;
    forall ud | ud in g'.inflight && g'.inflight[ud].Write? ensures OfStore(w', g'.inflight[ud].file) {
      OfStoreKept(w, w', g.inflight[ud].file);
    }
    forall c | c in g'.pendingCopies && c.StoreCopy? ensures OfStore(w', c.file) {
      OfStoreKept(w, w', c.file);
    }
  }

  lemma NewWrite(w: Work, g: Ring, f: FileRef, x: Slot)
    requires WritesAreStores(w, g) && OfStore(w, f)
    ensures WritesAreStores(w, Submit(g, Write(f, x)))
  {
  }

  lemma CopyTaken(g: Ring, k: nat)
    requires k < |g.pendingCopies|
    ensures NoNewStores(g, g.(pendingCopies := RemoveAt(g.pendingCopies, k)))
  {
  }

  lemma CopyWrites(s: State, k: nat, tempOk: bool, queued: bool)
    requires k < |s.ring.pendingCopies| && WritesAreStores(s.work, s.ring)
    ensures var s' := CopyDone(s, k, tempOk, queued); WritesAreStores(s'.work, s'.ring)
  {
    hide StoreCopyDone, SettleAll, JobsKept, NoNewStores, WritesAreStores, OnlyFailed;
    var c, s1 := s.ring.pendingCopies[k], s.(ring := s.ring.(pendingCopies := RemoveAt(s.ring.pendingCopies, k)));
    var s' := CopyDone(s, k, tempOk, queued);
    CopyTaken(s.ring, k);
    JobsSame(s.work);
    NoNewWrites(s.work, s.ring, s.work, s1.ring);
    match c
    case LoadBatch(members) =>
      SettledKeeps(s1, members, true);
      CalmRingSelf(s1.ring);
      NoNewWrites(s.work, s1.ring, s'.work, s'.ring);
    case StoreCopy(f, x) =>
      var s2 := s1.(memory := s1.memory[x := f.hash]);
      StoreCopyDoneStep(s2, f, x, tempOk, queued);
      PendingOfStore(s, k);
      CalmRingSelf(s1.ring);
      NoNewWrites(s.work, s1.ring, s'.work, s1.ring);
      if NoNewStores(s1.ring, s'.ring) {
        NoNewWrites(s.work, s1.ring, s'.work, s'.ring);
      } else {
        OfStoreKept(s.work, s'.work, f);
        NewWrite(s'.work, s1.ring, f, x);
      }
  }

  lemma PendingOfStore(s: State, k: nat)
    requires k < |s.ring.pendingCopies| && s.ring.pendingCopies[k].StoreCopy? && WritesAreStores(s.work, s.ring)
    ensures OfStore(s.work, s.ring.pendingCopies[k].file)
  {
  }

  lemma WriteEndWrites(s: State, ud: nat, ok: bool, closed: bool)
    requires ud in s.ring.inflight && s.ring.inflight[ud].Write? && WritesAreStores(s.work, s.ring)
    ensures var s' := OpCompletes(s, ud, ok, closed); WritesAreStores(s'.work, s'.ring)
  {
    hide WriteDone, JobsKept, StaysParked, WritesAreStores, NoNewStores;
    var g := s.ring.(inflight := s.ring.inflight - {ud});
    var s1 := s.(ring := AddData(g, -1));
    OpTakenCalm(s.ring, ud);
    OpTakenCalm(g, ud);
    JobsSame(s.work);
    NoNewWrites(s.work, s.ring, s.work, g);
    NoNewWrites(s.work, g, s.work, s1.ring);
    WriteDoneStep(s1, s.ring.inflight[ud].file, s.ring.inflight[ud].slot, ok);
    CalmRingSelf(s1.ring);
    NoNewWrites(s.work, s1.ring, OpCompletes(s, ud, ok, closed).work, s1.ring);
  }

  lemma StoreNextWrites(s: State, j: JobId, launched: bool)
    requires Unfinished(s.work, j) && !s.work.jobs[j].failed && s.work.jobs[j].isStore && WritesAreStores(s.work, s.ring)
    ensures var s' := ScheduleStore(s, j, launched); WritesAreStores(s'.work, s'.ring)
  {
    hide ScheduleStore, JobsKept, OnlyFailed, StaysParked;
    ScheduleStoreStep(s, j, launched);
    var s', f := ScheduleStore(s, j, launched), NextFile(s.work, j);
    OfStoreKept(s.work, s'.work, f);
    forall ud | ud in s'.ring.inflight && s'.ring.inflight[ud].Write? ensures OfStore(s'.work, s'.ring.inflight[ud].file) {
      OfStoreKept(s.work, s'.work, s.ring.inflight[ud].file);
    }
    forall c | c in s'.ring.pendingCopies && c.StoreCopy? ensures OfStore(s'.work, c.file) {
      if c.file != f { OfStoreKept(s.work, s'.work, c.file); }
    }
  }

  lemma CalmWrites(s: State, s': State)
    requires Calm(s, s') && WritesAreStores(s.work, s.ring)
    ensures WritesAreStores(s'.work, s'.ring)
  {
    hide JobsKept, NoNewStores, WritesAreStores, AllParked;
    NoNewWrites(s.work, s.ring, s'.work, s'.ring);
  }

  /** Steps in which no store moves on and no file succeeds. */
  predicate Quiet(s: State, e: Event)
    requires Enabled(s, e)
  {
    match e
    case CopyCompletion(_, _, _) => false
    case OpCompletion(ud, _, _) => !s.ring.inflight[ud].Write?
    case StoreNext(_, _) => false
    case _ => true
  }

  lemma QuietIsCalm(s: State, e: Event)
    requires Enabled(s, e) && Quiet(s, e)
    ensures Calm(s, Step(s, e))
  {
    hide Calm, WorkCalm, IntakePreload, IntakeLoad, IntakeStore, CopyDone, OpCompletes, ScheduleLoad, ScheduleStore, DrainLoadFd,
      DrainPreloadFd, DropCancelled, Speculate, FlushCopies, Promotes, HasDataBudget, RealLoadPressure, CanOpen, PreloadSlotsAvailable, Remaining;
    SameWork(s.work, s.work);
    match e
    case PreloadRequest(r, hs) => IntakePreloadCalm(s, r, hs); SameCalm(s, Step(s, e));
    case LoadRequest(r, hs, declined) => LoadRequestCalm(s, r, hs, declined);
    case StoreRequest(r, hs) => StoreRequestCalm(s, r, hs);
    case OpCompletion(ud, ok, closed) => OpCompletesCalm(s, ud, ok, closed);
    case LoadNext(j, queued) => ScheduleLoadCalm(s, j, queued);
    case ReadLoadFd(queued, closed) => DrainLoadCalm(s, queued, closed);
    case PreloadFd(queued, closed) => DrainPreloadCalm(s, queued, closed);
    case CancelledPending => PoppedDemand(s.demand, Info(0, 0)); SameCalm(s, Step(s, e));
    case SpeculativeOpen(queued) => SpeculateCalm(s, queued);
    case Flush(launched) => FlushCalm(s, launched);
    case Finish => SameWork(s.work, Step(s, e).work); SameCalm(s, Step(s, e));
  }

  lemma StepWrites(s: State, e: Event)
    requires Enabled(s, e) && WritesAreStores(s.work, s.ring)
    ensures WritesAreStores(Step(s, e).work, Step(s, e).ring)
  {
    hide Calm, WritesAreStores, CopyDone, OpCompletes, ScheduleStore, HasDataBudget;
    if Quiet(s, e) {
      QuietIsCalm(s, e);
      CalmWrites(s, Step(s, e));
    } else {
      match e
      case CopyCompletion(k, tempOk, queued) => CopyWrites(s, k, tempOk, queued);
      case OpCompletion(ud, ok, closed) => WriteEndWrites(s, ud, ok, closed);
      case StoreNext(j, launched) => StoreNextWrites(s, j, launched);
      case _ =>
    }
  }

  // ---------- Who is done ----------

  /** The event completes the batch that copied the file to the GPU. */
  predicate Delivers(s: State, e: Event, f: FileRef) {
    && Enabled(s, e) && e.CopyCompletion? && s.ring.pendingCopies[e.k].LoadBatch?
    && exists c :: c in s.ring.pendingCopies[e.k].members && c.file == f
  }

  lemma CopyDoneLog(s: State, k: nat, tempOk: bool, queued: bool, f: FileRef)
    requires k < |s.ring.pendingCopies|
    requires FileEnd(f, true) in CopyDone(s, k, tempOk, queued).work.log && FileEnd(f, true) !in s.work.log
    ensures s.ring.pendingCopies[k].LoadBatch? && exists c :: c in s.ring.pendingCopies[k].members && c.file == f
  {
    hide StoreCopyDone, SettleAll, StoreStep, NoNewStores;
    var s1 := s.(ring := s.ring.(pendingCopies := RemoveAt(s.ring.pendingCopies, k)));
    match s.ring.pendingCopies[k]
    case LoadBatch(members) => SettledLog(s1, members, true, FileEnd(f, true));
    case StoreCopy(g, x) =>
      StoreCopyDoneStep(s1.(memory := s1.memory[x := g.hash]), g, x, tempOk, queued);
      NotNew(s.work.log, CopyDone(s, k, tempOk, queued).work.log, f);
  }

  lemma NotNew(log: seq<FileEnd>, log': seq<FileEnd>, f: FileRef)
    requires OnlyFailed(log, log') && FileEnd(f, true) in log'
    ensures FileEnd(f, true) in log
  {
    var i :| 0 <= i < |log'| && log'[i] == FileEnd(f, true);
    assert i < |log|;
    assert log[i] == log'[i];
  }

  lemma WriteEndLog(s: State, ud: nat, ok: bool, closed: bool, f: FileRef)
    requires ud in s.ring.inflight && s.ring.inflight[ud].Write?
    requires FileEnd(f, true) in OpCompletes(s, ud, ok, closed).work.log && FileEnd(f, true) !in s.work.log
    ensures s.ring.inflight[ud].file == f
  {
    hide WriteDone, StoreStep;
    var s1 := s.(ring := AddData(s.ring.(inflight := s.ring.inflight - {ud}), -1));
    WriteDoneStep(s1, s.ring.inflight[ud].file, s.ring.inflight[ud].slot, ok);
  }

  /** A file that is not a store's succeeds only when the batch that copied it completes. */
  lemma DoneByDelivery(s: State, e: Event, f: FileRef)
    requires Enabled(s, e) && WritesAreStores(s.work, s.ring) && !OfStore(s.work, f)
    requires FileEnd(f, true) in Step(s, e).work.log && FileEnd(f, true) !in s.work.log
    ensures Delivers(s, e, f)
  {
    hide CopyDone, OpCompletes, ScheduleStore, HasDataBudget, OnlyFailed, StoreStep, JobsKept, NoNewStores, AllParked;
    if Quiet(s, e) {
      QuietIsCalm(s, e);
      NotNew(s.work.log, Step(s, e).work.log, f);
    } else {
      match e
      case CopyCompletion(k, tempOk, queued) => CopyDoneLog(s, k, tempOk, queued, f);
      case OpCompletion(ud, ok, closed) => WriteEndLog(s, ud, ok, closed, f);
      case StoreNext(j, launched) =>
        ScheduleStoreStep(s, j, launched);
        NotNew(s.work.log, Step(s, e).work.log, f);
      case _ =>
    }
  }

  lemma StepJobs(s: State, e: Event)
    requires Enabled(s, e)
    ensures JobsKept(s.work, Step(s, e).work)
  {
    hide Step, Enabled, JobsKept, MayEnd, StaysParked;
    StepParks(s, e, 0);
  }

  lemma {:induction false} WritesInRun(s: State, es: seq<Event>)
    requires IsRun(s, es) && WritesAreStores(s.work, s.ring)
    ensures WritesAreStores(After(s, es).work, After(s, es).ring)
    decreases |es|
  {
    hide Step, Enabled, WritesAreStores, IsRun, After;
    RunNothing(s);
    if es != [] {
      RunLast(s, es);
      WritesInRun(s, es[..|es| - 1]);
      StepWrites(After(s, es[..|es| - 1]), es[|es| - 1]);
    }
  }

  lemma RunPrefix(s: State, es: seq<Event>, n: nat)
    requires IsRun(s, es) && n < |es|
    ensures es[..|es| - 1][..n] == es[..n] && (n < |es| - 1 ==> es[..|es| - 1][n] == es[n])
  {
  }

  /** The event of a run that delivered a file. */
  lemma {:induction false} DeliveredIn(s: State, es: seq<Event>, f: FileRef) returns (n: nat)
    requires IsRun(s, es) && WritesAreStores(s.work, s.ring)
    requires FileEnd(f, true) !in s.work.log && FileEnd(f, true) in After(s, es).work.log && !OfStore(After(s, es).work, f)
    ensures n < |es| && IsRun(s, es[..n]) && Delivers(After(s, es[..n]), es[n], f)
    decreases |es|
  {
    hide Step, Enabled, WritesAreStores, IsRun, After, Delivers, JobsKept, OfStore;
    RunNothing(s);
    assert es != [];
    var front, e := es[..|es| - 1], es[|es| - 1];
    RunLast(s, es);
    var s1 := After(s, front);
    StepJobs(s1, e);
    NotOfStoreBefore(s1.work, After(s, es).work, f);
    if FileEnd(f, true) in s1.work.log {
      n := DeliveredIn(s, front, f);
      RunPrefix(s, es, n);
    } else {
      n := |es| - 1;
      WritesInRun(s, front);
      DoneByDelivery(s1, e, f);
    }
  }

  lemma NotOfStoreBefore(w: Work, w': Work, f: FileRef)
    requires JobsKept(w, w') && !OfStore(w', f)
    ensures !OfStore(w, f)
  {
    if OfStore(w, f) { OfStoreKept(w, w', f); }
  }

  // ---------- A successful load ----------

  lemma InitialWrites(cfg: Config, cache: SC.Cache, f: FileRef)
    ensures WritesAreStores(Initial(cfg, cache).work, Initial(cfg, cache).ring)
    ensures FileEnd(f, true) !in Initial(cfg, cache).work.log
  {
  }

  /** For each file of a load that has succeeded, the run contains the completion of a batch with a copy of that
      file, from a slot that held the bytes of the file's hash and that nobody could change. */
  lemma SuccessMeansDelivered(cfg: Config, cache: SC.Cache, es: seq<Event>, j: JobId, i: nat) returns (n: nat, a: nat)
    requires EmptyCache(cache) && IsRun(Initial(cfg, cache), es)
    requires var s := After(Initial(cfg, cache), es);
      j < |s.work.jobs| && !s.work.jobs[j].isStore && s.work.jobs[j].outcomes == [Succeeded] && i < |s.work.jobs[j].hashes|
    ensures n < |es| && IsRun(Initial(cfg, cache), es[..n])
    ensures var s, h := After(Initial(cfg, cache), es[..n]), After(Initial(cfg, cache), es).work.jobs[j].hashes[i];
      && Enabled(s, es[n]) && es[n].CopyCompletion? && s.ring.pendingCopies[es[n].k].LoadBatch?
      && var members := s.ring.pendingCopies[es[n].k].members;
      && a < |members| && members[a].file == FileRef(j, i, h)
      && members[a].slot in s.memory && s.memory[members[a].slot] == h && Untouched(s, members[a].slot)
  {
    hide IsRun, After, Initial, EmptyCache, Reached, WritesAreStores, Enabled, Untouched, CopyIn;
    var s0 := Initial(cfg, cache);
    var s := After(s0, es);
    var f := FileRef(j, i, s.work.jobs[j].hashes[i]);
    ReachedBy(cfg, cache, es);
    SuccessMeansAll(s, j, i);
    InitialWrites(cfg, cache, f);
    n := DeliveredIn(s0, es, f);
    var sn := After(s0, es[..n]);
    EnabledCopy(sn, es[n]);
    var members := sn.ring.pendingCopies[es[n].k].members;
    var c :| c in members && c.file == f;
    a :| 0 <= a < |members| && members[a] == c;
    ReachedBy(cfg, cache, es[..n]);
    MemberIn(sn, es[n].k, a);
    CopyBytes(sn, c);
  }

  lemma MemberIn(s: State, k: nat, a: nat)
    requires k < |s.ring.pendingCopies| && s.ring.pendingCopies[k].LoadBatch? && a < |s.ring.pendingCopies[k].members|
    ensures CopyIn(s, s.ring.pendingCopies[k].members[a])
  {
  }

  lemma CopyBytes(s: State, c: LoadCopy)
    requires Reached(s) && CopyIn(s, c)
    ensures c.slot in s.memory && s.memory[c.slot] == c.file.hash && Untouched(s, c.slot)
    ensures 0 <= c.slot < s.Cfg().slotCount
  {
    hide Inv, Total, CopyIn, Untouched, Reached, Expects;
    ReachedInv(s);
    CopyExpects(s, c);
    ExpectedBytes(s, c.slot, c.file.hash);
    NotBlank(s, c.slot);
    ExpectedSlot(s, c.slot, c.file.hash);
  }

  lemma ExpectedSlot(s: State, x: Slot, h: Hash)
    requires Inv(s) && Expects(s, x, h)
    ensures 0 <= x < s.Cfg().slotCount
  {
    hide Total, CacheOk, SharedOk, BytesRight, FilePart, BudgetsOk, DemandPart;
    Nothing(Total(s));
  }

  // ---------- The bytes ----------

  /** The slots of memory `m` hold the files that the reactor takes them to hold; `disk` gives the contents of
      each hash's file. */
  ghost predicate HoldsFiles(y: T.Layout, m: B.Memory, disk: Hash -> seq<B.Byte>, memory: map<Slot, Hash>) {
    forall x: nat :: x in memory ==> B.Image(y, m, x) == disk(memory[x])
  }

  /** The files of a batch have blocks to go to, and no block is wanted by two of them. */
  ghost predicate TargetsApart(y: T.Layout, blocks: nat, target: FileRef -> seq<int>, members: seq<LoadCopy>) {
    && (forall a :: 0 <= a < |members| ==>
          |target(members[a].file)| <= y.factor && B.InRange(target(members[a].file), blocks) && Distinct(target(members[a].file)))
    && (forall a, b :: 0 <= a < b < |members| && members[a].file != members[b].file ==>
          F.DisjointChunks(target(members[a].file), target(members[b].file)))
  }

  /** The batch as regions of memory. */
  function Pieces(members: seq<LoadCopy>, target: FileRef -> seq<int>): seq<F.Piece>
    requires forall a :: 0 <= a < |members| ==> members[a].slot >= 0
  {
    seq(|members|, a requires 0 <= a < |members| => F.Piece(members[a].slot, target(members[a].file)))
  }

  /** The files of a batch are different files. */
  lemma BatchFilesDiffer(s: State, k: nat, a: nat, b: nat)
    requires Reached(s) && k < |s.ring.pendingCopies| && s.ring.pendingCopies[k].LoadBatch?
    requires a < b < |s.ring.pendingCopies[k].members|
    ensures s.ring.pendingCopies[k].members[a].file != s.ring.pendingCopies[k].members[b].file
  {
    hide Reached, Inv, Total, Flat, CopyTokens;
    ReachedInv(s);
    var members := s.ring.pendingCopies[k].members;
    var f := members[a].file;
    FileCount(s, f);
    BatchTokens(s, k);
    CopyHasFile(members[a]);
    CopyHasFile(members[b]);
    if members[b].file == f { FlatTwo(members, CopyTokens, a, b, TFile(f)); }
  }

  lemma BatchTokens(s: State, k: nat)
    requires k < |s.ring.pendingCopies| && s.ring.pendingCopies[k].LoadBatch?
    ensures Flat(s.ring.pendingCopies[k].members, CopyTokens) <= Total(s)
  {
    hide Flat, Sum, CopyTokens, WorkTotal;
    FlatHas(s.ring.pendingCopies, k, PendingCopyTokens);
  }

  lemma BatchSlots(s: State, k: nat)
    requires Reached(s) && k < |s.ring.pendingCopies| && s.ring.pendingCopies[k].LoadBatch?
    ensures forall c :: c in s.ring.pendingCopies[k].members ==>
      0 <= c.slot < s.Cfg().slotCount && c.slot in s.memory && s.memory[c.slot] == c.file.hash
  {
    hide Reached, CopyIn, Untouched;
    var members := s.ring.pendingCopies[k].members;
    forall c | c in members
      ensures 0 <= c.slot < s.Cfg().slotCount && c.slot in s.memory && s.memory[c.slot] == c.file.hash
    {
      var a :| 0 <= a < |members| && members[a] == c;
      MemberIn(s, k, a);
      CopyBytes(s, c);
    }
  }

  lemma BatchIsSetUp(s: State, k: nat, y: T.Layout, blocks: nat, target: FileRef -> seq<int>)
    requires Reached(s) && k < |s.ring.pendingCopies| && s.ring.pendingCopies[k].LoadBatch?
    requires B.Separate(y, blocks, s.Cfg().slotCount) && TargetsApart(y, blocks, target, s.ring.pendingCopies[k].members)
    ensures forall c :: c in s.ring.pendingCopies[k].members ==> c.slot >= 0
    ensures F.Fit(y, Pieces(s.ring.pendingCopies[k].members, target))
    ensures F.BatchSetup(y, blocks, s.Cfg().slotCount, Pieces(s.ring.pendingCopies[k].members, target))
  {
    hide Reached, B.Separate, B.InRange, Distinct, F.DisjointChunks;
    BatchSlots(s, k);
    var members := s.ring.pendingCopies[k].members;
    var ps := Pieces(members, target);
    forall a, b | 0 <= a < b < |ps| ensures F.DisjointChunks(ps[a].chunk, ps[b].chunk) {
      BatchFilesDiffer(s, k, a, b);
    }
  }

  /** A batch under way in a reached state, whatever else is in memory: once its regions are copied, each block
      that one of its files is for holds the bytes of its sub-block of that file. */
  lemma BatchDelivers(s: State, k: nat, y: T.Layout, blocks: nat, target: FileRef -> seq<int>, disk: Hash -> seq<B.Byte>,
                      m: B.Memory, a: nat, l: nat, q: nat, t: nat)
    requires Reached(s) && k < |s.ring.pendingCopies| && s.ring.pendingCopies[k].LoadBatch?
    requires y.Valid() && B.Separate(y, blocks, s.Cfg().slotCount)
    requires TargetsApart(y, blocks, target, s.ring.pendingCopies[k].members) && HoldsFiles(y, m, disk, s.memory)
    requires a < |s.ring.pendingCopies[k].members| && l < |y.bytes| && t < y.bytes[l]
    requires q < |target(s.ring.pendingCopies[k].members[a].file)|
    ensures var members := s.ring.pendingCopies[k].members;
      && (forall c :: c in members ==> c.slot >= 0)
      && F.Fit(y, Pieces(members, target)) && |target(members[a].file)| <= y.factor
      && B.HoldsFile(y, B.CopyBatch(m, F.BatchEntries(y, Pieces(members, target))),
                     disk(members[a].file.hash), target(members[a].file), l, q, t)
  {
    hide Reached, B.Separate, B.CopyBatch, B.HoldsFile, B.Image, F.BatchEntries, F.BatchSetup, TargetsApart;
    BatchSlots(s, k);
    BatchIsSetUp(s, k, y, blocks, target);
    var members := s.ring.pendingCopies[k].members;
    var ps := Pieces(members, target);
    assert members[a] in members;
    assert ps[a] == F.Piece(members[a].slot, target(members[a].file));
    F.FusedHolds(y, blocks, s.Cfg().slotCount, m, ps, disk(members[a].file.hash), a, l, q, t);
  }

  /** The blocks that file `f` is for hold it after the event, for every memory in which the staging slots hold
      their files. */
  ghost predicate Arrives(s: State, e: Event, f: FileRef, y: T.Layout, target: FileRef -> seq<int>, disk: Hash -> seq<B.Byte>)
    requires y.Valid()
  {
    && Enabled(s, e) && e.CopyCompletion? && s.ring.pendingCopies[e.k].LoadBatch?
    && var members := s.ring.pendingCopies[e.k].members;
    && (forall c :: c in members ==> c.slot >= 0)
    && F.Fit(y, Pieces(members, target)) && |target(f)| <= y.factor
    && forall m: B.Memory, l: nat, q: nat, t: nat ::
         HoldsFiles(y, m, disk, s.memory) && l < |y.bytes| && q < |target(f)| && t < y.bytes[l] ==>
         B.HoldsFile(y, B.CopyBatch(m, F.BatchEntries(y, Pieces(members, target))), disk(f.hash), target(f), l, q, t)
  }

  /** In every batch of the run the files are for different blocks. */
  ghost predicate BatchesApart(s0: State, es: seq<Event>, y: T.Layout, blocks: nat, target: FileRef -> seq<int>) {
    forall n: nat, k: nat :: n <= |es| && IsRun(s0, es[..n]) ==>
      var s := After(s0, es[..n]);
      k < |s.ring.pendingCopies| && s.ring.pendingCopies[k].LoadBatch? ==> TargetsApart(y, blocks, target, s.ring.pendingCopies[k].members)
  }

  lemma BatchApart(s0: State, es: seq<Event>, y: T.Layout, blocks: nat, target: FileRef -> seq<int>, n: nat, k: nat)
    requires BatchesApart(s0, es, y, blocks, target) && n <= |es| && IsRun(s0, es[..n])
    requires k < |After(s0, es[..n]).ring.pendingCopies| && After(s0, es[..n]).ring.pendingCopies[k].LoadBatch?
    ensures TargetsApart(y, blocks, target, After(s0, es[..n]).ring.pendingCopies[k].members)
  {
    hide IsRun, After, TargetsApart;
  }

  /** End to end: for each file of a load that has succeeded, the run contains the event that brought the file's
      bytes to the GPU blocks it is for, however many files the batch fused. The files of one batch are for
      different blocks; everything else about memory is free. */
  lemma LoadArrives(cfg: Config, cache: SC.Cache, es: seq<Event>, j: JobId, i: nat,
                    y: T.Layout, blocks: nat, target: FileRef -> seq<int>, disk: Hash -> seq<B.Byte>) returns (n: nat)
    requires EmptyCache(cache) && IsRun(Initial(cfg, cache), es)
    requires var s := After(Initial(cfg, cache), es);
      j < |s.work.jobs| && !s.work.jobs[j].isStore && s.work.jobs[j].outcomes == [Succeeded] && i < |s.work.jobs[j].hashes|
    requires y.Valid() && B.Separate(y, blocks, cfg.slotCount)
    requires BatchesApart(Initial(cfg, cache), es, y, blocks, target)
    ensures n < |es| && IsRun(Initial(cfg, cache), es[..n])
    ensures Arrives(After(Initial(cfg, cache), es[..n]), es[n],
                    FileRef(j, i, After(Initial(cfg, cache), es).work.jobs[j].hashes[i]), y, target, disk)
  {
    hide IsRun, After, Initial, EmptyCache, Reached, Enabled, Untouched, TargetsApart, HoldsFiles, B.Separate, B.CopyBatch, B.HoldsFile,
      F.BatchEntries, BatchesApart;
    var a: nat;
    n, a := SuccessMeansDelivered(cfg, cache, es, j, i);
    var s := After(Initial(cfg, cache), es[..n]);
    EnabledCopy(s, es[n]);
    var k := es[n].k;
    var members := s.ring.pendingCopies[k].members;
    var f := members[a].file;
    ReachedBy(cfg, cache, es[..n]);
    RunCfg(Initial(cfg, cache), es[..n]);
    InitialCfg(cfg, cache);
    BatchApart(Initial(cfg, cache), es, y, blocks, target, n, k);
    BatchIsSetUp(s, k, y, blocks, target);
    assert |target(f)| <= y.factor by { TargetFits(y, blocks, target, members, a); }
    forall m: B.Memory, l: nat, q: nat, t: nat
      | HoldsFiles(y, m, disk, s.memory) && l < |y.bytes| && q < |target(f)| && t < y.bytes[l]
      ensures B.HoldsFile(y, B.CopyBatch(m, F.BatchEntries(y, Pieces(members, target))), disk(f.hash), target(f), l, q, t)
    {
      BatchDelivers(s, k, y, blocks, target, disk, m, a, l, q, t);
    }
  }

  lemma InitialCfg(cfg: Config, cache: SC.Cache)
    ensures Initial(cfg, cache).Cfg() == cfg
  {
  }

  lemma TargetFits(y: T.Layout, blocks: nat, target: FileRef -> seq<int>, members: seq<LoadCopy>, a: nat)
    requires TargetsApart(y, blocks, target, members) && a < |members|
    ensures |target(members[a].file)| <= y.factor
  {
  }

  lemma EnabledCopy(s: State, e: Event)
    requires Enabled(s, e) && e.CopyCompletion?
    ensures e.k < |s.ring.pendingCopies|
  {
  }
}
